/**
 * The navigation registry's entry types: one entry per registered service or
 * module, grouped by kind, and the display-name sort the menu applies to each
 * group.
 */
module RegistryModel {
  import opened Wrappers

  datatype RegistryKind = SERVICE | MODULE | INFRA | EXTERNAL

  datatype RegistryEntry = RegistryEntry(
    name: string,
    displayName: string,
    kind: RegistryKind,
    tags: seq<string>,
    capabilities: seq<string>,
    version: Option<string>,
    metadata: map<string, string>,
    resolvable: bool,
    targetHint: Option<string>)

  datatype RegistryGroups = RegistryGroups(
    core: seq<RegistryEntry>,
    services: seq<RegistryEntry>,
    modules: seq<RegistryEntry>,
    infra: seq<RegistryEntry>,
    external: seq<RegistryEntry>)

  /** `createEmptyRegistryGroups`: all five groups empty. */
  function CreateEmptyRegistryGroups(): (g: RegistryGroups)
    ensures g.core == [] && g.services == [] && g.modules == [] && g.infra == [] && g.external == []
  {
    RegistryGroups([], [], [], [], [])
  }

  /**
   * The order `localeCompare` puts display names in, as a relation `le(a, b)`
   * ("a sorts no later than b"). The sort needs it to be total and transitive.
   */
  ghost predicate TotalPreorder(le: (string, string) -> bool) {
    (forall a, b :: le(a, b) || le(b, a))
    && (forall a, b, c :: le(a, b) && le(b, c) ==> le(a, c))
  }

  /** Entries in non-decreasing display-name order. */
  ghost predicate SortedByDisplayName(entries: seq<RegistryEntry>, le: (string, string) -> bool) {
    forall i, j :: 0 <= i < j < |entries| ==> le(entries[i].displayName, entries[j].displayName)
  }

  /** Places `e` before the first entry it sorts no later than. */
  function Insert(e: RegistryEntry, sorted: seq<RegistryEntry>, le: (string, string) -> bool): (r: seq<RegistryEntry>)
    ensures multiset(r) == multiset(sorted) + multiset{e}
  {
    if sorted == [] then [e]
    else if le(e.displayName, sorted[0].displayName) then [e] + sorted
    else
      assert sorted == [sorted[0]] + sorted[1..];
      [sorted[0]] + Insert(e, sorted[1..], le)
  }

  /** Inserting into a sorted sequence keeps it sorted. */
  lemma {:induction false} InsertSorted(e: RegistryEntry, sorted: seq<RegistryEntry>, le: (string, string) -> bool)
    requires TotalPreorder(le) && SortedByDisplayName(sorted, le)
    ensures SortedByDisplayName(Insert(e, sorted, le), le)
  {
    if sorted == [] {
    } else if le(e.displayName, sorted[0].displayName) {
      ConsSorted(e, sorted, le);
    } else {
      var rest := Insert(e, sorted[1..], le);
      InsertSorted(e, sorted[1..], le);
      InsertLowerBound(e, sorted, le);
      ConsSorted(sorted[0], rest, le);
    }
  }

  /** An entry that sorts no later than the head of a sorted sequence can go in front of it. */
  lemma ConsSorted(e: RegistryEntry, sorted: seq<RegistryEntry>, le: (string, string) -> bool)
    requires TotalPreorder(le) && SortedByDisplayName(sorted, le)
    requires sorted != [] ==> le(e.displayName, sorted[0].displayName)
    ensures SortedByDisplayName([e] + sorted, le)
  {
    var r := [e] + sorted;
    forall i, j | 0 <= i < j < |r| ensures le(r[i].displayName, r[j].displayName) {
      if i == 0 && j > 1 {
        assert le(sorted[0].displayName, sorted[j - 1].displayName);
      }
    }
  }

  /** When `e` goes after the head, the head still sorts no later than everything inserted behind it. */
  lemma InsertLowerBound(e: RegistryEntry, sorted: seq<RegistryEntry>, le: (string, string) -> bool)
    requires TotalPreorder(le) && SortedByDisplayName(sorted, le)
    requires sorted != [] && !le(e.displayName, sorted[0].displayName)
    ensures var rest := Insert(e, sorted[1..], le);
      rest != [] ==> le(sorted[0].displayName, rest[0].displayName)
  {
    var rest := Insert(e, sorted[1..], le);
    if rest != [] {
      assert rest[0] in multiset(rest);
      if rest[0] != e {
        assert rest[0] in multiset(sorted[1..]);
        var m :| 0 <= m < |sorted[1..]| && sorted[1..][m] == rest[0];
        assert sorted[m + 1] == rest[0];
      }
    }
  }

  /**
   * `sortEntries`: a copy of the entries in display-name order. The argument
   * is a value, so it is left as it was.
   */
  function SortEntries(entries: seq<RegistryEntry>, le: (string, string) -> bool): (r: seq<RegistryEntry>)
    ensures multiset(r) == multiset(entries)
    ensures |r| == |entries|
  {
    if entries == [] then []
    else
      assert entries == [entries[0]] + entries[1..];
      Insert(entries[0], SortEntries(entries[1..], le), le)
  }

  /** Under a total preorder the copy is sorted. */
  lemma {:induction false} SortEntriesSorted(entries: seq<RegistryEntry>, le: (string, string) -> bool)
    requires TotalPreorder(le)
    ensures SortedByDisplayName(SortEntries(entries, le), le)
  {
    if entries != [] {
      SortEntriesSorted(entries[1..], le);
      InsertSorted(entries[0], SortEntries(entries[1..], le), le);
    }
  }

  /** A stable sort leaves an already sorted sequence as it is. */
  lemma {:induction false} SortEntriesOfSorted(entries: seq<RegistryEntry>, le: (string, string) -> bool)
    requires SortedByDisplayName(entries, le)
    ensures SortEntries(entries, le) == entries
  {
    if entries != [] {
      var tail := entries[1..];
      assert SortedByDisplayName(tail, le);
      SortEntriesOfSorted(tail, le);
      if tail != [] {
        assert le(entries[0].displayName, tail[0].displayName);
      }
      assert entries == [entries[0]] + tail;
    }
  }
}
