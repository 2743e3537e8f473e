/**
  The fault relay's history query: for each filter the newest matching events up to the
  filter's limit, joined over all filters and returned oldest first.
 */
module RelayQuery {
  import opened Prelude

  datatype Event = Event(id: string, pubkey: string, createdAt: int, kind: nat, tags: seq<seq<string>>)

  /** A filter field as it arrives: missing, of the wrong shape, or usable. */
  datatype Field<T> = Absent | Malformed | Given(value: T)

  datatype Filter = Filter(
    ids: Field<seq<string>>, authors: Field<seq<string>>, kinds: Field<seq<nat>>,
    since: Field<int>, until: Field<int>, tags: map<string, Field<seq<string>>>, limit: Field<int>)

  predicate PrefixMatch(value: string, prefixes: seq<string>) {
    exists k :: 0 <= k < |prefixes| && prefixes[k] <= value
  }

  predicate HasTag(event: Event, name: string, wanted: seq<string>) {
    exists k :: 0 <= k < |event.tags| && |event.tags[k]| >= 2 && event.tags[k][0] == name
                && event.tags[k][1] != "" && event.tags[k][1] in wanted
  }

  predicate MatchesFilter(event: Event, f: Filter) {
    && (f.ids.Absent? || (f.ids.Given? && PrefixMatch(event.id, f.ids.value)))
    && (f.authors.Absent? || (f.authors.Given? && PrefixMatch(event.pubkey, f.authors.value)))
    && (f.kinds.Absent? || (f.kinds.Given? && event.kind in f.kinds.value))
    && (f.since.Absent? || (f.since.Given? && event.createdAt >= f.since.value))
    && (f.until.Absent? || (f.until.Given? && event.createdAt <= f.until.value))
    && (forall name :: name in f.tags ==> f.tags[name].Given? && HasTag(event, name, f.tags[name].value))
  }

  function Limit(f: Filter, available: nat): nat {
    match f.limit
    case Absent => available
    case Malformed => 0
    case Given(n) => if n < 0 then 0 else if n < available then n else available
  }

  // ---- the order of events ----

  /** Ids are lower-case hex; their collation is the lexicographic order. */
  predicate IdLess(a: string, b: string) {
    b != "" && (a == "" || a[0] < b[0] || (a[0] == b[0] && IdLess(a[1..], b[1..])))
  }

  lemma {:induction false} IdIrreflexive(a: string)
    ensures !IdLess(a, a)
  {
    if a != "" { IdIrreflexive(a[1..]); }
  }

  lemma {:induction false} IdTotal(a: string, b: string)
    ensures a != b ==> IdLess(a, b) || IdLess(b, a)
    ensures !(IdLess(a, b) && IdLess(b, a))
  {
    if a != "" && b != "" && a[0] == b[0] {
      IdTotal(a[1..], b[1..]);
      assert a == [a[0]] + a[1..] && b == [b[0]] + b[1..];
    }
  }

  lemma {:induction false} IdTransitive(a: string, b: string, c: string)
    requires IdLess(a, b) && IdLess(b, c)
    ensures IdLess(a, c)
  {
    if a != "" && a[0] == b[0] == c[0] { IdTransitive(a[1..], b[1..], c[1..]); }
  }

  /** `a` is strictly newer than `b`; ties in time are broken by id. */
  predicate Newer(a: Event, b: Event) {
    a.createdAt > b.createdAt || (a.createdAt == b.createdAt && IdLess(b.id, a.id))
  }

  lemma NewerOrder(a: Event, b: Event, c: Event)
    ensures a.id != b.id ==> Newer(a, b) || Newer(b, a)
    ensures !(Newer(a, b) && Newer(b, a)) && !Newer(a, a)
    ensures Newer(a, b) && Newer(b, c) ==> Newer(a, c)
  {
    IdTotal(a.id, b.id);
    IdIrreflexive(a.id);
    if Newer(a, b) && Newer(b, c) && a.createdAt == b.createdAt == c.createdAt { IdTransitive(c.id, b.id, a.id); }
  }

  predicate OneEventPerId(events: seq<Event>) {
    forall i, j :: 0 <= i < j < |events| ==> events[i].id != events[j].id
  }

  predicate NewestFirst(s: seq<Event>) { forall i, j :: 0 <= i < j < |s| ==> Newer(s[i], s[j]) }

  function PlaceNewest(e: Event, s: seq<Event>): (r: seq<Event>)
    ensures forall x :: x in r <==> x == e || x in s
  {
    if s == [] then [e]
    else if Newer(s[0], e) then [s[0]] + PlaceNewest(e, s[1..])
    else [e] + s
  }

  function SortNewest(events: seq<Event>): (r: seq<Event>)
    ensures forall x :: x in r <==> x in events
  {
    if events == [] then [] else PlaceNewest(events[0], SortNewest(events[1..]))
  }

  /** The opposite comparator: oldest first. */
  function SortOldest(events: seq<Event>): seq<Event> { Reversed(SortNewest(events)) }

  lemma {:induction false} PlaceNewestSorted(e: Event, s: seq<Event>)
    requires NewestFirst(s) && forall x :: x in s ==> x.id != e.id
    ensures NewestFirst(PlaceNewest(e, s))
  {
    if s != [] {
      NewerOrder(s[0], e, e);
      if Newer(s[0], e) {
        PlaceNewestSorted(e, s[1..]);
        var r := PlaceNewest(e, s[1..]);
        forall j | 0 <= j < |r| ensures Newer(s[0], r[j]) {
          assert r[j] in r;
          if r[j] != e { assert r[j] in s[1..]; }
        }
      } else {
        forall j | 0 <= j < |s| ensures Newer(e, s[j]) { NewerOrder(e, s[0], s[j]); }
      }
    }
  }

  lemma {:induction false} SortSorted(events: seq<Event>)
    requires OneEventPerId(events)
    ensures NewestFirst(SortNewest(events))
  {
    if events != [] {
      SortSorted(events[1..]);
      forall x | x in SortNewest(events[1..]) ensures x.id != events[0].id { assert x in events[1..]; }
      PlaceNewestSorted(events[0], SortNewest(events[1..]));
    }
  }

  // ---- the meaning of a query ----

  /** The matching events that are strictly newer than `e`. */
  ghost function NewerMatches(events: seq<Event>, f: Filter, e: Event): set<Event> {
    set x | x in events && MatchesFilter(x, f) && Newer(x, e)
  }

  /** `e` is among the newest `limit` events that match `f`. */
  ghost predicate SelectedBy(events: seq<Event>, f: Filter, e: Event) {
    e in events && MatchesFilter(e, f) && |NewerMatches(events, f, e)| < Limit(f, |events|)
  }

  ghost predicate Answers(events: seq<Event>, filters: seq<Filter>, e: Event) {
    exists k :: 0 <= k < |filters| && SelectedBy(events, filters[k], e)
  }

  function Matching(sorted: seq<Event>, f: Filter): (r: seq<Event>)
    ensures forall x :: x in r <==> x in sorted && MatchesFilter(x, f)
  {
    if sorted == [] then []
    else if MatchesFilter(sorted[0], f) then [sorted[0]] + Matching(sorted[1..], f)
    else Matching(sorted[1..], f)
  }

  lemma {:induction false} MatchingSorted(sorted: seq<Event>, f: Filter)
    requires NewestFirst(sorted)
    ensures NewestFirst(Matching(sorted, f))
  {
    if sorted != [] {
      MatchingSorted(sorted[1..], f);
      var r := Matching(sorted[1..], f);
      forall j | 0 <= j < |r| ensures Newer(sorted[0], r[j]) {
        assert r[j] in r;
        assert r[j] in sorted[1..];
      }
    }
  }

  ghost function Elements(s: seq<Event>): set<Event> { set x | x in s }

  /** In a newest-first list exactly `i` elements are newer than the one at position `i`. */
  lemma {:induction false} RankIsPosition(s: seq<Event>, i: nat)
    requires NewestFirst(s) && i < |s|
    ensures |set x | x in s && Newer(x, s[i])| == i
  {
    var newer := set x | x in s && Newer(x, s[i]);
    var ahead := Elements(s[..i]);
    forall x | x in newer ensures x in ahead {
      var k :| 0 <= k < |s| && s[k] == x;
      NewerOrder(s[k], s[i], s[i]);
      NewerOrder(s[i], s[i], s[i]);
      assert k < i;
      assert s[..i][k] == x;
    }
    assert newer == ahead;
    PrefixSize(s, i);
  }

  lemma ElementsSnoc(s: seq<Event>, e: Event)
    ensures Elements(s + [e]) == Elements(s) + {e}
  {
    hide IdLess, Newer;
  }

  lemma NoRepeat(s: seq<Event>, i: nat)
    requires NewestFirst(s) && i < |s|
    ensures s[i] !in s[..i] && s[i] !in Elements(s[..i])
  {
    NewerOrder(s[i], s[i], s[i]);
    hide Newer;
    forall k | 0 <= k < i ensures s[..i][k] != s[i] { assert Newer(s[k], s[i]); }
  }

  lemma {:induction false} PrefixSize(s: seq<Event>, i: nat)
    requires NewestFirst(s) && i <= |s|
    ensures |Elements(s[..i])| == i
  {
    if i > 0 {
      hide Elements, NewestFirst;
      PrefixSize(s, i - 1);
      NoRepeat(s, i - 1);
      assert s[..i] == s[..i - 1] + [s[i - 1]];
      ElementsSnoc(s[..i - 1], s[i - 1]);
    }
  }

  /** Taking a prefix of the matching events is selecting by rank. */
  lemma TakeIsSelection(events: seq<Event>, f: Filter, e: Event)
    requires OneEventPerId(events)
    ensures var hits := Matching(SortNewest(events), f);
            var n := Limit(f, |events|);
            e in hits[..if n < |hits| then n else |hits|] <==> SelectedBy(events, f, e)
  {
    var hits := Matching(SortNewest(events), f);
    var n := Limit(f, |events|);
    SortSorted(events);
    MatchingSorted(SortNewest(events), f);
    if e in hits {
      var i :| 0 <= i < |hits| && hits[i] == e;
      RankIsPosition(hits, i);
      assert (set x | x in hits && Newer(x, e)) == NewerMatches(events, f, e);
      var m := if n < |hits| then n else |hits|;
      if e in hits[..m] {
        var k :| 0 <= k < m && hits[..m][k] == e;
        NewerOrder(hits[k], hits[i], e);
        assert k == i;
      }
      if i < m { assert hits[..m][i] == e; }
    }
  }

  /** The relay's query, with the source's loops over filters and hits. */
  method QueryEvents(events: seq<Event>, filters: seq<Filter>) returns (r: seq<Event>)
    requires OneEventPerId(events)
    ensures forall e :: e in r <==> Answers(events, filters, e)
    ensures forall i, j :: 0 <= i < j < |r| ==> Newer(r[j], r[i])
  {
    var selected: seq<Event> := [];
    var newestFirst := SortNewest(events);
    for k := 0 to |filters|
      invariant forall e :: e in selected <==> Answers(events, filters[..k], e)
      invariant OneEventPerId(selected) && forall e :: e in selected ==> e in events
    {
      var limit := Limit(filters[k], |events|);
      var hits := Matching(newestFirst, filters[k]);
      var take := if limit < |hits| then limit else |hits|;
      ghost var before := selected;
      for i := 0 to take
        invariant forall e :: e in selected <==> e in before || e in hits[..i]
        invariant OneEventPerId(selected) && forall e :: e in selected ==> e in events
      {
        assert hits[i] in hits && hits[i] in newestFirst && hits[i] in events;
        if hits[i] !in selected {
          IdNamesEvent(events, selected, hits[i]);
          selected := selected + [hits[i]];
        }
        assert hits[..i + 1] == hits[..i] + [hits[i]];
      }
      forall e
        ensures e in selected <==> Answers(events, filters[..k + 1], e)
      {
        TakeIsSelection(events, filters[k], e);
        AnswersNext(events, filters, k, e);
      }
    }
    assert filters[..|filters|] == filters;
    SortSorted(selected);
    r := SortOldest(selected);
    OldestHolds(selected);
  }

  lemma OldestHolds(selected: seq<Event>)
    requires NewestFirst(SortNewest(selected))
    ensures forall e :: e in SortOldest(selected) <==> e in selected
    ensures var r := SortOldest(selected); forall i, j :: 0 <= i < j < |r| ==> Newer(r[j], r[i])
  {
    var sorted := SortNewest(selected);
    var r := SortOldest(selected);
    forall e | e in sorted ensures e in r {
      var k :| 0 <= k < |sorted| && sorted[k] == e;
      assert r[|sorted| - 1 - k] == e;
    }
  }

  lemma IdNamesEvent(events: seq<Event>, selected: seq<Event>, e: Event)
    requires OneEventPerId(events) && e in events && e !in selected && forall x :: x in selected ==> x in events
    requires OneEventPerId(selected)
    ensures OneEventPerId(selected + [e])
  {
    forall k | 0 <= k < |selected| ensures selected[k].id != e.id {
      assert selected[k] in selected;
    }
  }

  lemma AnswersNext(events: seq<Event>, filters: seq<Filter>, k: nat, e: Event)
    requires k < |filters|
    ensures Answers(events, filters[..k + 1], e) <==> Answers(events, filters[..k], e) || SelectedBy(events, filters[k], e)
  {
    var (shorter, longer) := (filters[..k], filters[..k + 1]);
    if Answers(events, shorter, e) {
      var i :| 0 <= i < |shorter| && SelectedBy(events, shorter[i], e);
      assert longer[i] == shorter[i];
    }
    if SelectedBy(events, filters[k], e) { assert longer[k] == filters[k]; }
    if Answers(events, longer, e) {
      var i :| 0 <= i < |longer| && SelectedBy(events, longer[i], e);
      if i < k { assert shorter[i] == longer[i]; }
    }
  }

  lemma BothEmpty(a: seq<Event>, b: seq<Event>)
    requires forall e :: e in a <==> e in b
    ensures a == [] <==> b == []
  {
    if a != [] { assert a[0] in a && a[0] in b; }
    if b != [] { assert b[0] in b && b[0] in a; }
  }

  /** Two oldest-first lists of the same events are equal. */
  lemma {:induction false} OldestFirstIsUnique(a: seq<Event>, b: seq<Event>)
    requires forall e :: e in a <==> e in b
    requires forall i, j :: 0 <= i < j < |a| ==> Newer(a[j], a[i])
    requires forall i, j :: 0 <= i < j < |b| ==> Newer(b[j], b[i])
    ensures a == b
  {
    BothEmpty(a, b);
    if a != [] {
      assert a[0] in a && a[0] in b;
      assert b[0] in b && b[0] in a;
      NewerOrder(a[0], b[0], a[0]);
      assert a[0] == b[0];
      TailMembers(a, b);
      OldestFirstIsUnique(a[1..], b[1..]);
      assert a == [a[0]] + a[1..] && b == [b[0]] + b[1..];
    }
  }

  lemma TailMembers(a: seq<Event>, b: seq<Event>)
    requires a != [] && b != [] && a[0] == b[0] && forall e :: e in a <==> e in b
    requires forall i, j :: 0 <= i < j < |a| ==> Newer(a[j], a[i])
    requires forall i, j :: 0 <= i < j < |b| ==> Newer(b[j], b[i])
    ensures forall e :: e in a[1..] <==> e in b[1..]
  {
    forall e
      ensures e in a[1..] <==> e in b[1..]
    {
      NewerOrder(a[0], a[0], a[0]);
      assert e in a <==> e in b;
    }
  }

  /** The answer does not depend on the order in which the relay stores its events. */
  lemma AnswerIgnoresStorageOrder(events: seq<Event>, stored: seq<Event>, filters: seq<Filter>, a: seq<Event>, b: seq<Event>)
    requires |events| == |stored| && forall e :: e in events <==> e in stored
    requires forall e :: e in a <==> Answers(events, filters, e)
    requires forall e :: e in b <==> Answers(stored, filters, e)
    requires forall i, j :: 0 <= i < j < |a| ==> Newer(a[j], a[i])
    requires forall i, j :: 0 <= i < j < |b| ==> Newer(b[j], b[i])
    ensures a == b
  {
    forall e
      ensures e in a <==> e in b
    {
      forall f: Filter
        ensures SelectedBy(events, f, e) <==> SelectedBy(stored, f, e)
      {
        assert NewerMatches(events, f, e) == NewerMatches(stored, f, e);
      }
    }
    OldestFirstIsUnique(a, b);
  }

  // ---- what filters ask for ----

  /** The event's text starts with one of the given ones. */
  predicate StartsWithOneOf(text: string, given: seq<string>) {
    exists k :: 0 <= k < |given| && |given[k]| <= |text| && text[..|given[k]|] == given[k]
  }

  /** Some tag has this name and one of these values, which is not empty. */
  predicate CarriesTag(event: Event, name: string, values: seq<string>) {
    exists k, v :: 0 <= k < |event.tags| && 0 <= v < |values| && |event.tags[k]| >= 2
                   && event.tags[k][0] == name && event.tags[k][1] == values[v] && values[v] != ""
  }

  /** A missing field asks for nothing, a malformed one for the impossible. */
  predicate Wanted(event: Event, f: Filter) {
    && !f.ids.Malformed? && !f.authors.Malformed? && !f.kinds.Malformed? && !f.since.Malformed? && !f.until.Malformed?
    && (f.ids.Given? ==> StartsWithOneOf(event.id, f.ids.value))
    && (f.authors.Given? ==> StartsWithOneOf(event.pubkey, f.authors.value))
    && (f.kinds.Given? ==> exists k :: 0 <= k < |f.kinds.value| && f.kinds.value[k] == event.kind)
    && (f.since.Given? ==> f.since.value <= event.createdAt)
    && (f.until.Given? ==> event.createdAt <= f.until.value)
    && (forall name :: name in f.tags ==> f.tags[name].Given? && CarriesTag(event, name, f.tags[name].value))
  }

  lemma PrefixMatchIff(text: string, given: seq<string>)
    ensures PrefixMatch(text, given) <==> StartsWithOneOf(text, given)
  {
  }

  lemma HasTagIff(event: Event, name: string, values: seq<string>)
    ensures HasTag(event, name, values) <==> CarriesTag(event, name, values)
  {
    if HasTag(event, name, values) {
      var k :| 0 <= k < |event.tags| && |event.tags[k]| >= 2 && event.tags[k][0] == name
               && event.tags[k][1] != "" && event.tags[k][1] in values;
      var v :| 0 <= v < |values| && values[v] == event.tags[k][1];
      assert CarriesTag(event, name, values);
    }
  }

  lemma MatchesIffWanted(event: Event, f: Filter)
    ensures MatchesFilter(event, f) <==> Wanted(event, f)
  {
    if f.ids.Given? { PrefixMatchIff(event.id, f.ids.value); }
    if f.authors.Given? { PrefixMatchIff(event.pubkey, f.authors.value); }
    forall name | name in f.tags && f.tags[name].Given?
      ensures HasTag(event, name, f.tags[name].value) <==> CarriesTag(event, name, f.tags[name].value)
    {
      HasTagIff(event, name, f.tags[name].value);
    }
    hide PrefixMatch, StartsWithOneOf, HasTag, CarriesTag;
  }

  /** Whatever is returned is wanted by one of the filters: prefixes, kinds, tags and the time window. */
  lemma ReturnedAreWanted(events: seq<Event>, filters: seq<Filter>, e: Event)
    requires Answers(events, filters, e)
    ensures e in events && exists k :: 0 <= k < |filters| && Wanted(e, filters[k])
  {
    var k :| 0 <= k < |filters| && SelectedBy(events, filters[k], e);
    MatchesIffWanted(e, filters[k]);
  }

  /** Without a limit a filter gets all it wants; with a malformed or negative one it gets nothing. */
  lemma LimitMeaning(events: seq<Event>, f: Filter, e: Event)
    requires OneEventPerId(events) && e in events
    ensures f.limit.Absent? ==> (SelectedBy(events, f, e) <==> Wanted(e, f))
    ensures f.limit.Malformed? || (f.limit.Given? && f.limit.value <= 0) ==> !SelectedBy(events, f, e)
    ensures f.limit.Given? && SelectedBy(events, f, e) ==> |NewerMatches(events, f, e)| < f.limit.value
    ensures f.limit.Given? && 0 <= |NewerMatches(events, f, e)| < f.limit.value && Wanted(e, f) ==> SelectedBy(events, f, e)
  {
    MatchesIffWanted(e, f);
    FewerAreNewer(events, f, e);
  }

  /** Fewer events are newer than a stored one than there are events. */
  lemma FewerAreNewer(events: seq<Event>, f: Filter, e: Event)
    requires e in events
    ensures |NewerMatches(events, f, e)| < |events|
  {
    NewerOrder(e, e, e);
    hide Newer, MatchesFilter;
    var newer := NewerMatches(events, f, e);
    assert newer <= Elements(events) - {e};
    ElementsBound(events);
    SubsetSize(newer, Elements(events) - {e});
  }

  lemma {:induction false} ElementsBound(s: seq<Event>)
    ensures |Elements(s)| <= |s|
  {
    if s != [] {
      var n := |s| - 1;
      ElementsBound(s[..n]);
      assert s == s[..n] + [s[n]];
      ElementsSnoc(s[..n], s[n]);
    }
  }
}
