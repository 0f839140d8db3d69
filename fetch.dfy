/** What `fetch_data` does with a successful response: the `days` list sorted by
    `datetime`, newest first. Python's `sorted(..., reverse=True)` is stable, so entries with
    equal dates keep their input order. */
module Fetch {
  import opened Observations

  /** Non-increasing by date: the first entry is the most recent. */
  predicate NewestFirst(s: seq<Day>) {
    forall i, j :: 0 <= i < j < |s| ==> s[i].datetime >= s[j].datetime
  }

  /** The entries of `s` dated `t`, in their order in `s`. */
  function OnDate(s: seq<Day>, t: Date): seq<Day> {
    if s == [] then []
    else (if s[0].datetime == t then [s[0]] else []) + OnDate(s[1..], t)
  }

  /** An entry no older than `d` and than every entry of `tail` is no older than any entry
      of a rearrangement of `tail` and `d`. */
  lemma NoOlderThanAll(h: Day, d: Day, tail: seq<Day>, rest: seq<Day>)
    requires multiset(rest) == multiset(tail) + multiset{d}
    requires h.datetime >= d.datetime
    requires forall k :: 0 <= k < |tail| ==> h.datetime >= tail[k].datetime
    ensures forall k :: 0 <= k < |rest| ==> h.datetime >= rest[k].datetime
  {
    forall k | 0 <= k < |rest| ensures h.datetime >= rest[k].datetime {
      assert rest[k] in multiset(rest);
      if rest[k] != d {
        assert rest[k] in multiset(tail);
        var m :| 0 <= m < |tail| && tail[m] == rest[k];
      }
    }
  }

  /** Prefixing an entry no older than any entry of a newest-first list keeps it so. */
  lemma ConsNewestFirst(h: Day, rest: seq<Day>)
    requires NewestFirst(rest)
    requires forall k :: 0 <= k < |rest| ==> h.datetime >= rest[k].datetime
    ensures NewestFirst([h] + rest)
  {
  }

  /** Places `d` in a newest-first list ahead of every entry it does not predate. */
  function Insert(d: Day, s: seq<Day>): (r: seq<Day>)
    requires NewestFirst(s)
    ensures |r| == |s| + 1
    ensures multiset(r) == multiset(s) + multiset{d}
    ensures NewestFirst(r)
  {
    if s == [] || d.datetime >= s[0].datetime then
      ConsNewestFirst(d, s);
      [d] + s
    else
      var rest := Insert(d, s[1..]);
      assert s == [s[0]] + s[1..];
      NoOlderThanAll(s[0], d, s[1..], rest);
      ConsNewestFirst(s[0], rest);
      assert multiset([s[0]] + rest) == multiset{s[0]} + multiset(rest);
      [s[0]] + rest
  }

  /** `sorted(days_list, key=lambda x: x['datetime'], reverse=True)`. */
  function SortDays(days: seq<Day>): (r: seq<Day>)
    ensures NewestFirst(r)
    ensures multiset(r) == multiset(days)
    ensures |r| == |days|
  {
    if days == [] then []
    else
      assert days == [days[0]] + days[1..];
      Insert(days[0], SortDays(days[1..]))
  }

  /** The entries dated `t` of a list with a given first entry. */
  lemma OnDateCons(x: Day, s: seq<Day>, t: Date)
    ensures OnDate([x] + s, t) == (if x.datetime == t then [x] else []) + OnDate(s, t)
  {
    assert ([x] + s)[1..] == s;
  }

  /** Inserting keeps the relative order of the entries of every date, with `d` ahead of
      those of its own date. */
  lemma {:induction false} InsertStable(d: Day, s: seq<Day>, t: Date)
    requires NewestFirst(s)
    ensures OnDate(Insert(d, s), t) == OnDate([d] + s, t)
    decreases |s|
  {
    if s != [] && d.datetime < s[0].datetime {
      var tail := s[1..];
      var rest := Insert(d, tail);
      InsertStable(d, tail, t);
      assert s == [s[0]] + tail;
      OnDateCons(s[0], rest, t);
      OnDateCons(d, tail, t);
      OnDateCons(d, s, t);
      OnDateCons(s[0], tail, t);
      var here := if s[0].datetime == t then [s[0]] else [];
      var mine := if d.datetime == t then [d] else [];
      assert here == [] || mine == [];
      assert here + (mine + OnDate(tail, t)) == mine + (here + OnDate(tail, t));
    }
  }

  /** The sort is stable: for every date, the entries of that date appear in the output in
      the order they had in the input. */
  lemma {:induction false} SortStable(days: seq<Day>, t: Date)
    ensures OnDate(SortDays(days), t) == OnDate(days, t)
    decreases |days|
  {
    if days != [] {
      SortStable(days[1..], t);
      InsertStable(days[0], SortDays(days[1..]), t);
      assert ([days[0]] + SortDays(days[1..]))[1..] == SortDays(days[1..]);
    }
  }

  /** The first entry of the sorted list is a most recent one. */
  lemma LatestFirst(days: seq<Day>)
    requires days != []
    ensures SortDays(days)[0] in days
    ensures forall d :: d in days ==> SortDays(days)[0].datetime >= d.datetime
  {
    var r := SortDays(days);
    assert r[0] in multiset(r);
    forall d | d in days ensures r[0].datetime >= d.datetime {
      assert d in multiset(days);
      var k :| 0 <= k < |r| && r[k] == d;
    }
  }
}
