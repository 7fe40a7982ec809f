/**
 * The run controller of the fixture dumper (AbstractDumper.php): three
 * optional filter lists, the one-file-or-many switch, the entity filter and
 * the dump loop. Doctrine metadata, reflection, dump ordering and fixture
 * generation are given as values and function values; writing a file is an
 * append to the ghost log `written`.
 */
module Dumper {
  import opened Wrappers
  import opened PhpBuiltins

  /** What `getReflectionClass()` of a metadata object reports to the filter. */
  datatype ReflectionClass = ReflectionClass(namespaceName: string, shortName: string)

  /** One entity's mapping metadata, as far as the dumper looks into it. */
  datatype ClassMetadata = ClassMetadata(name: string, reflectionClass: ReflectionClass)

  /** The two generator calls `dump` makes: the fixture text of an entity and its file name. */
  datatype Generator = Generator(
    generate: ClassMetadata -> string,
    createFileName: (ClassMetadata, bool) -> string)

  /** An argument that PHP receives untyped: an array of names, or a single scalar. */
  datatype ListArg = Many(items: seq<string>) | One(item: string)

  /** The names an argument contributes when it is merged into a list. */
  function Items(arg: ListArg): seq<string> {
    match arg
    case Many(items) => items
    case One(item) => [item]
  }

  /** `getNormalizedList`: same length and keys, every element lower-cased. */
  function NormalizedList(list: seq<string>): (r: seq<string>)
    ensures |r| == |list|
  {
    if list == [] then [] else NormalizedList(list[..|list| - 1]) + [StrToLower(list[|list| - 1])]
  }

  lemma {:induction false} NormalizedListAt(list: seq<string>, k: nat)
    requires k < |list|
    ensures NormalizedList(list)[k] == StrToLower(list[k])
  {
    if k < |list| - 1 {
      NormalizedListAt(list[..|list| - 1], k);
    }
  }

  /** `getNormalizedList` as the source runs it: a loop rewriting each entry in place. */
  method GetNormalizedList(list: seq<string>) returns (r: seq<string>)
    ensures r == NormalizedList(list)
  {
    r := list;
    for key := 0 to |r|
      invariant |r| == |list|
      invariant forall k :: 0 <= k < key ==> r[k] == StrToLower(list[k])
      invariant forall k :: key <= k < |r| ==> r[k] == list[k]
    {
      r := r[key := StrToLower(r[key])];
    }
    forall k | 0 <= k < |list|
      ensures r[k] == NormalizedList(list)[k]
    {
      NormalizedListAt(list, k);
    }
  }

  lemma NormalizedListIdempotent(list: seq<string>)
    ensures NormalizedList(NormalizedList(list)) == NormalizedList(list)
  {
    var once := NormalizedList(list);
    forall k | 0 <= k < |list|
      ensures NormalizedList(once)[k] == once[k]
    {
      NormalizedListAt(list, k);
      NormalizedListAt(once, k);
      StrToLowerIdempotent(list[k]);
    }
  }

  /** `name` matches some entry of `list` when case is ignored. */
  ghost predicate ListedIgnoringCase(list: seq<string>, name: string) {
    exists k :: 0 <= k < |list| && StrToLower(list[k]) == StrToLower(name)
  }

  /** Looking a lower-cased name up in the normalized list is a case-insensitive lookup. */
  lemma NormalizedListMembership(list: seq<string>, name: string)
    ensures StrToLower(name) in NormalizedList(list) <==> ListedIgnoringCase(list, name)
  {
    var normalized := NormalizedList(list);
    if StrToLower(name) in normalized {
      var k :| 0 <= k < |normalized| && normalized[k] == StrToLower(name);
      NormalizedListAt(list, k);
    }
    if ListedIgnoringCase(list, name) {
      var k :| 0 <= k < |list| && StrToLower(list[k]) == StrToLower(name);
      NormalizedListAt(list, k);
      assert normalized[k] == StrToLower(name);
    }
  }

  /**
   * Sequence axioms give this directly; `Dump` calls it (and the two `Snoc`
   * lemmas below) to point the solver at the one regrouping of the write log
   * it needs, without which the loop proof runs out of resources.
   */
  lemma AppendAssociative<T>(a: seq<T>, b: seq<T>, c: seq<T>)
    ensures (a + b) + c == a + (b + c)
  {
  }

  function Last<T>(s: seq<T>): T
    requires s != []
  {
    s[|s| - 1]
  }

  /** The fixtures of `kept`, in order. */
  function Fixtures(kept: seq<ClassMetadata>, generate: ClassMetadata -> string): (r: seq<string>)
    ensures |r| == |kept|
  {
    if kept == [] then [] else Fixtures(kept[..|kept| - 1], generate) + [generate(kept[|kept| - 1])]
  }

  /** One (file name, fixture) write per entity of `kept`, as multi-file mode produces them. */
  function PerEntityWrites(kept: seq<ClassMetadata>, generator: Generator): (w: seq<(string, string)>)
    ensures |w| == |kept|
  {
    if kept == [] then []
    else
      var last := kept[|kept| - 1];
      PerEntityWrites(kept[..|kept| - 1], generator) + [(generator.createFileName(last, true), generator.generate(last))]
  }

  /** Entry `k` of the fixtures is the fixture generated for the `k`-th kept entity. */
  lemma {:induction false} FixturesAt(kept: seq<ClassMetadata>, generate: ClassMetadata -> string, k: nat)
    requires k < |kept|
    ensures Fixtures(kept, generate)[k] == generate(kept[k])
  {
    if k < |kept| - 1 {
      FixturesAt(kept[..|kept| - 1], generate, k);
    }
  }

  /** Write `k` in multi-file mode names and holds the `k`-th kept entity's fixture. */
  lemma {:induction false} PerEntityWritesAt(kept: seq<ClassMetadata>, generator: Generator, k: nat)
    requires k < |kept|
    ensures PerEntityWrites(kept, generator)[k] ==
      (generator.createFileName(kept[k], true), generator.generate(kept[k]))
  {
    if k < |kept| - 1 {
      PerEntityWritesAt(kept[..|kept| - 1], generator, k);
    }
  }

  lemma FixturesSnoc(kept: seq<ClassMetadata>, data: ClassMetadata, generate: ClassMetadata -> string)
    ensures Fixtures(kept + [data], generate) == Fixtures(kept, generate) + [generate(data)]
  {
    assert (kept + [data])[..|kept|] == kept;
  }

  lemma PerEntityWritesSnoc(kept: seq<ClassMetadata>, data: ClassMetadata, generator: Generator)
    ensures PerEntityWrites(kept + [data], generator) ==
      PerEntityWrites(kept, generator) + [(generator.createFileName(data, true), generator.generate(data))]
  {
    assert (kept + [data])[..|kept|] == kept;
  }

  /** The three optional filter lists of a dumper; None is PHP's `null` (never set). */
  datatype Filters = Filters(
    namespaces: Option<seq<string>>,
    whiteList: Option<seq<string>>,
    blackList: Option<seq<string>>)

  /** No list has been set: nothing restricts the dump. */
  const Unfiltered: Filters := Filters(None, None, None)

  /** `skipEntity`: the namespace, whitelist and blacklist checks, in that order. */
  function SkipEntity(filters: Filters, data: ClassMetadata): bool {
    var ref := data.reflectionClass;
    if filters.namespaces.Some? && !InArray(ref.namespaceName, filters.namespaces.value) then true
    else if filters.whiteList.Some? && !InArray(StrToLower(ref.shortName), NormalizedList(filters.whiteList.value)) then true
    else if filters.blackList.Some? && InArray(StrToLower(ref.shortName), NormalizedList(filters.blackList.value)) then true
    else false
  }

  /**
   * An entity is skipped exactly when the namespace list is set and lacks its
   * namespace (exact match), or the whitelist is set and lacks its short name,
   * or the blacklist is set and holds its short name (both ignoring case).
   */
  lemma SkipEntityExactly(filters: Filters, data: ClassMetadata)
    ensures SkipEntity(filters, data) <==>
      (filters.namespaces.Some? && data.reflectionClass.namespaceName !in filters.namespaces.value) ||
      (filters.whiteList.Some? && !ListedIgnoringCase(filters.whiteList.value, data.reflectionClass.shortName)) ||
      (filters.blackList.Some? && ListedIgnoringCase(filters.blackList.value, data.reflectionClass.shortName))
  {
    var short := StrToLower(data.reflectionClass.shortName);
    InArrayMembership(data.reflectionClass.namespaceName, filters.namespaces.GetOr([]));
    InArrayMembership(short, NormalizedList(filters.whiteList.GetOr([])));
    InArrayMembership(short, NormalizedList(filters.blackList.GetOr([])));
    NormalizedListMembership(filters.whiteList.GetOr([]), data.reflectionClass.shortName);
    NormalizedListMembership(filters.blackList.GetOr([]), data.reflectionClass.shortName);
  }

  /** The entities of `metadata` that `dump` does not skip, in dump order. */
  function Kept(filters: Filters, metadata: seq<ClassMetadata>): (kept: seq<ClassMetadata>)
    ensures |kept| <= |metadata|
  {
    KeptPrefix(filters, metadata, |metadata|)
  }

  /** The kept entities among the first `n` of `metadata`: the state of the dump loop after `n` steps. */
  function KeptPrefix(filters: Filters, metadata: seq<ClassMetadata>, n: nat): (kept: seq<ClassMetadata>)
    requires n <= |metadata|
    ensures |kept| <= n
  {
    if n == 0 then []
    else KeptPrefix(filters, metadata, n - 1) + (if SkipEntity(filters, metadata[n - 1]) then [] else [metadata[n - 1]])
  }

  /** Entities after the first `n` do not affect what is kept among the first `n`. */
  lemma {:induction false} KeptPrefixExtend(filters: Filters, a: seq<ClassMetadata>, b: seq<ClassMetadata>, n: nat)
    requires n <= |a|
    ensures KeptPrefix(filters, a + b, n) == KeptPrefix(filters, a, n)
  {
    if n > 0 {
      KeptPrefixExtend(filters, a, b, n - 1);
      assert (a + b)[n - 1] == a[n - 1];
    }
  }

  /** Dumping one more entity extends the kept entities by it, unless it is skipped. */
  lemma KeptSnoc(filters: Filters, metadata: seq<ClassMetadata>, x: ClassMetadata)
    ensures Kept(filters, metadata + [x]) ==
      Kept(filters, metadata) + (if SkipEntity(filters, x) then [] else [x])
  {
    KeptPrefixExtend(filters, metadata, [x], |metadata|);
    assert (metadata + [x])[|metadata|] == x;
  }

  const FixtureSeparator: string := "\n\n"

  /**
   * The writes one `dump` over `metadata` (already in dump order) performs:
   * one per kept entity, or one for all of them under the last one's name.
   */
  function Writes(multipleFiles: bool, filters: Filters, metadata: seq<ClassMetadata>, generator: Generator)
    : seq<(string, string)>
  {
    var kept := Kept(filters, metadata);
    if multipleFiles then PerEntityWrites(kept, generator)
    else if kept == [] then []
    else [(generator.createFileName(kept[|kept| - 1], false),
           Implode(FixtureSeparator, Fixtures(kept, generator.generate)))]
  }

  // Properties of the filter

  /** With no list ever set, `skipEntity` lets every entity through. */
  lemma UnfilteredSkipsNothing(filters: Filters, data: ClassMetadata)
    requires filters.namespaces.None? && filters.whiteList.None? && filters.blackList.None?
    ensures !SkipEntity(filters, data)
  {
  }

  /** A namespace list that is set but empty (`setNamespaces(array())`) skips everything. */
  lemma EmptyNamespaceListSkipsAll(filters: Filters, data: ClassMetadata)
    requires filters.namespaces == Some([])
    ensures SkipEntity(filters, data)
  {
  }

  /** A whitelist that is set but empty skips everything. */
  lemma EmptyWhitelistSkipsAll(filters: Filters, data: ClassMetadata)
    requires filters.whiteList == Some([])
    ensures SkipEntity(filters, data)
  {
  }

  /** Two entities of one namespace whose short names differ only in case are filtered alike. */
  lemma SkipIgnoresShortNameCase(filters: Filters, a: ClassMetadata, b: ClassMetadata)
    requires a.reflectionClass.namespaceName == b.reflectionClass.namespaceName
    requires StrToLower(a.reflectionClass.shortName) == StrToLower(b.reflectionClass.shortName)
    ensures SkipEntity(filters, a) == SkipEntity(filters, b)
  {
  }

  // Properties of the dump loop

  /** Filtering distributes over concatenation, so the kept entities keep dump order. */
  lemma {:induction false} KeptAppend(filters: Filters, a: seq<ClassMetadata>, b: seq<ClassMetadata>)
    ensures Kept(filters, a + b) == Kept(filters, a) + Kept(filters, b)
  {
    if b == [] {
      assert a + b == a;
    } else {
      var init, last := b[..|b| - 1], b[|b| - 1];
      assert b == init + [last];
      assert a + b == (a + init) + [last];
      KeptSnoc(filters, a + init, last);
      KeptSnoc(filters, init, last);
      KeptAppend(filters, a, init);
    }
  }

  /** An entity is kept exactly when it is in the dump order and not skipped. */
  lemma {:induction false} KeptMembership(filters: Filters, metadata: seq<ClassMetadata>, x: ClassMetadata)
    ensures x in Kept(filters, metadata) <==> x in metadata && !SkipEntity(filters, x)
  {
    if metadata != [] {
      var init := metadata[..|metadata| - 1];
      KeptMembership(filters, init, x);
      assert metadata == init + [metadata[|metadata| - 1]];
      KeptSnoc(filters, init, metadata[|metadata| - 1]);
    }
  }

  /** With no filter set, every entity is kept, in dump order. */
  lemma {:induction false} UnfilteredKeepsAll(filters: Filters, metadata: seq<ClassMetadata>)
    requires filters.namespaces.None? && filters.whiteList.None? && filters.blackList.None?
    ensures Kept(filters, metadata) == metadata
  {
    if metadata != [] {
      var init := metadata[..|metadata| - 1];
      var last := metadata[|metadata| - 1];
      UnfilteredKeepsAll(filters, init);
      UnfilteredSkipsNothing(filters, last);
      assert metadata == init + [last];
      KeptSnoc(filters, init, last);
    }
  }

  /** Nothing is kept exactly when every entity is skipped. */
  lemma {:induction false} KeptEmptyIffAllSkipped(filters: Filters, metadata: seq<ClassMetadata>)
    ensures Kept(filters, metadata) == [] <==>
      forall k :: 0 <= k < |metadata| ==> SkipEntity(filters, metadata[k])
  {
    if metadata != [] {
      var init := metadata[..|metadata| - 1];
      assert metadata == init + [metadata[|metadata| - 1]];
      KeptSnoc(filters, init, metadata[|metadata| - 1]);
      KeptEmptyIffAllSkipped(filters, init);
      if Kept(filters, metadata) == [] {
        forall k | 0 <= k < |metadata|
          ensures SkipEntity(filters, metadata[k])
        {
          if k < |init| {
            assert metadata[k] == init[k];
          }
        }
      }
    }
  }

  /** Entity `j` is not skipped, and every entity after it in dump order is. */
  ghost predicate LastNotSkippedAt(filters: Filters, metadata: seq<ClassMetadata>, j: int) {
    0 <= j < |metadata| && !SkipEntity(filters, metadata[j]) &&
    forall k :: j < k < |metadata| ==> SkipEntity(filters, metadata[k])
  }

  /** The last kept entity is the last entity of the dump order that is not skipped. */
  lemma {:induction false} KeptLastIsLastNotSkipped(filters: Filters, metadata: seq<ClassMetadata>)
    requires Kept(filters, metadata) != []
    ensures exists j :: LastNotSkippedAt(filters, metadata, j) && metadata[j] == Last(Kept(filters, metadata))
  {
    var n := |metadata|;
    var init := metadata[..n - 1];
    assert metadata == init + [metadata[n - 1]];
    KeptSnoc(filters, init, metadata[n - 1]);
    if SkipEntity(filters, metadata[n - 1]) {
      KeptLastIsLastNotSkipped(filters, init);
      var j :| LastNotSkippedAt(filters, init, j) && init[j] == Last(Kept(filters, init));
      assert metadata[j] == init[j];
      forall k | j < k < n
        ensures SkipEntity(filters, metadata[k])
      {
        if k < n - 1 {
          assert metadata[k] == init[k];
        }
      }
    } else {
      assert LastNotSkippedAt(filters, metadata, n - 1);
    }
  }

  lemma {:induction false} PerEntityWritesAppend(a: seq<ClassMetadata>, b: seq<ClassMetadata>, generator: Generator)
    ensures PerEntityWrites(a + b, generator) == PerEntityWrites(a, generator) + PerEntityWrites(b, generator)
  {
    if b == [] {
      assert a + b == a;
    } else {
      var init := b[..|b| - 1];
      assert (a + b)[..|a + b| - 1] == a + init;
      assert (a + b)[|a + b| - 1] == b[|b| - 1];
      PerEntityWritesAppend(a, init, generator);
    }
  }

  /**
   * Multi-file mode: one write per entity that is not skipped, in dump order,
   * each holding that entity's fixture under `createFileName(entity, true)`;
   * a skipped entity is never written.
   */
  lemma MultipleFilesWrites(filters: Filters, metadata: seq<ClassMetadata>, generator: Generator)
    ensures |Writes(true, filters, metadata, generator)| == |Kept(filters, metadata)|
    ensures forall k :: 0 <= k < |Kept(filters, metadata)| ==>
      Writes(true, filters, metadata, generator)[k] ==
        (generator.createFileName(Kept(filters, metadata)[k], true), generator.generate(Kept(filters, metadata)[k]))
    ensures forall x :: x in metadata && SkipEntity(filters, x) ==> x !in Kept(filters, metadata)
  {
    var kept := Kept(filters, metadata);
    forall k | 0 <= k < |kept|
      ensures Writes(true, filters, metadata, generator)[k] ==
        (generator.createFileName(kept[k], true), generator.generate(kept[k]))
    {
      PerEntityWritesAt(kept, generator, k);
    }
    forall x | x in metadata && SkipEntity(filters, x)
      ensures x !in kept
    {
      KeptMembership(filters, metadata, x);
    }
  }

  /** Multi-file mode writes as it goes: dumping `a` then `b` writes what dumping `a + b` writes. */
  lemma MultipleFilesWritesAppend(filters: Filters, a: seq<ClassMetadata>, b: seq<ClassMetadata>, generator: Generator)
    ensures Writes(true, filters, a + b, generator) ==
      Writes(true, filters, a, generator) + Writes(true, filters, b, generator)
  {
    KeptAppend(filters, a, b);
    PerEntityWritesAppend(Kept(filters, a), Kept(filters, b), generator);
  }

  /**
   * Single-file mode: exactly one write when some entity is not skipped and
   * none otherwise; it holds the kept fixtures in dump order, joined by a
   * blank line, under `createFileName(last kept entity, false)`.
   */
  lemma SingleFileWrites(filters: Filters, metadata: seq<ClassMetadata>, generator: Generator)
    ensures |Writes(false, filters, metadata, generator)| <= 1
    ensures |Writes(false, filters, metadata, generator)| == 1 <==>
      exists k :: 0 <= k < |metadata| && !SkipEntity(filters, metadata[k])
    ensures Writes(false, filters, metadata, generator) != [] ==>
      Writes(false, filters, metadata, generator)[0] ==
        (generator.createFileName(Last(Kept(filters, metadata)), false),
         Implode(FixtureSeparator, Fixtures(Kept(filters, metadata), generator.generate)))
    ensures Writes(false, filters, metadata, generator) != [] ==>
      exists j :: LastNotSkippedAt(filters, metadata, j) &&
        Writes(false, filters, metadata, generator)[0].0 == generator.createFileName(metadata[j], false)
  {
    KeptEmptyIffAllSkipped(filters, metadata);
    if Kept(filters, metadata) != [] {
      KeptLastIsLastNotSkipped(filters, metadata);
    }
  }

  /** The single file's content starts with the first kept fixture and ends with the last. */
  lemma SingleFileContentBounds(filters: Filters, metadata: seq<ClassMetadata>, generator: Generator)
    requires Writes(false, filters, metadata, generator) != []
    ensures var kept := Kept(filters, metadata);
      var content := Writes(false, filters, metadata, generator)[0].1;
      |generator.generate(kept[0])| <= |content| &&
      content[..|generator.generate(kept[0])|] == generator.generate(kept[0]) &&
      EndsWith(content, generator.generate(Last(kept)))
  {
    var kept := Kept(filters, metadata);
    var fixtures := Fixtures(kept, generator.generate);
    FixturesAt(kept, generator.generate, 0);
    FixturesAt(kept, generator.generate, |kept| - 1);
    ImplodeEnds(FixtureSeparator, fixtures);
  }

  class AbstractDumper {
    var dumpMultipleFiles: bool
    /** `null` (None) means no namespace restriction; an empty list admits nothing. */
    var dumpNamespaces: Option<seq<string>>
    var whiteList: Option<seq<string>>
    var blackList: Option<seq<string>>
    /** Every (file name, content) pair handed to `writeFixture`, in order. */
    ghost var written: seq<(string, string)>

    constructor ()
      ensures dumpMultipleFiles
      ensures CurrentFilters() == Unfiltered
      ensures written == []
    {
      dumpMultipleFiles := true;
      dumpNamespaces, whiteList, blackList := None, None, None;
      written := [];
    }

    function CurrentFilters(): Filters
      reads this`dumpNamespaces, this`whiteList, this`blackList
    {
      Filters(dumpNamespaces, whiteList, blackList)
    }

    method SetDumpMultipleFiles(multiple: bool)
      modifies this`dumpMultipleFiles
      ensures dumpMultipleFiles == multiple
    {
      dumpMultipleFiles := multiple;
    }

    method ShouldDumpMultipleFiles() returns (multiple: bool)
      ensures multiple == dumpMultipleFiles
    {
      multiple := dumpMultipleFiles;
    }

    method AddNamespace(ns: string)
      modifies this`dumpNamespaces
      ensures dumpNamespaces == Some(old(dumpNamespaces).GetOr([]) + [ns])
    {
      if dumpNamespaces.None? {
        dumpNamespaces := Some([]);
      }
      dumpNamespaces := Some(dumpNamespaces.value + [ns]);
    }

    /** Replaces the namespace list when given an array; any other argument is ignored. */
    method SetNamespaces(namespaces: ListArg)
      modifies this`dumpNamespaces
      ensures namespaces.Many? ==> dumpNamespaces == Some(namespaces.items)
      ensures namespaces.One? ==> dumpNamespaces == old(dumpNamespaces)
    {
      if namespaces.Many? {
        dumpNamespaces := Some(namespaces.items);
      }
    }

    method AddToWhitelist(wl: ListArg)
      modifies this`whiteList
      ensures whiteList == Some(old(whiteList).GetOr([]) + Items(wl))
    {
      if whiteList.None? {
        whiteList := Some([]);
      }
      if wl.Many? {
        whiteList := Some(whiteList.value + wl.items);
      } else {
        whiteList := Some(whiteList.value + [wl.item]);
      }
    }

    method AddToBlacklist(bl: ListArg)
      modifies this`blackList
      ensures blackList == Some(old(blackList).GetOr([]) + Items(bl))
    {
      if blackList.None? {
        blackList := Some([]);
      }
      if bl.Many? {
        blackList := Some(blackList.value + bl.items);
      } else {
        blackList := Some(blackList.value + [bl.item]);
      }
    }

    /** `writeFixture`: the file system is not modelled, only the write itself. */
    method WriteFixture(fixture: string, fileName: string)
      modifies this`written
      ensures written == old(written) + [(fileName, fixture)]
    {
      written := written + [(fileName, fixture)];
    }

    /**
     * One pass of the `dump` loop: a skipped entity changes nothing; any other
     * has its fixture generated, and it is written at once under its own name
     * in multi-file mode, or collected under the single file's name otherwise.
     */
    method DumpEntity(filters: Filters, multiple: bool, generator: Generator, data: ClassMetadata,
                      fixtures: seq<string>, fileName: string)
      returns (fixtures': seq<string>, fileName': string)
      modifies this`written
      ensures SkipEntity(filters, data) ==> fixtures' == fixtures && fileName' == fileName && written == old(written)
      ensures !SkipEntity(filters, data) ==>
        fixtures' == fixtures + [generator.generate(data)] &&
        fileName' == generator.createFileName(data, multiple) &&
        written == old(written) + (if multiple then [(fileName', generator.generate(data))] else [])
    {
      fixtures', fileName' := fixtures, fileName;
      if !SkipEntity(filters, data) {
        var fixture := generator.generate(data);
        if multiple {
          fileName' := generator.createFileName(data, true);
          WriteFixture(fixture, fileName');
        } else {
          fileName' := generator.createFileName(data, false);
        }
        fixtures' := fixtures' + [fixture];
      }
    }

    /**
     * `dump`: orders all metadata, skips filtered entities, generates each
     * remaining fixture and writes it, either one file per entity or all of
     * them joined into one file after the loop.
     */
    method Dump(allMetadata: seq<ClassMetadata>,
                getDumpOrder: seq<ClassMetadata> -> seq<ClassMetadata>,
                generator: Generator)
      modifies this`written
      ensures written ==
        old(written) + Writes(dumpMultipleFiles, CurrentFilters(), getDumpOrder(allMetadata), generator)
    {
      var metadata := getDumpOrder(allMetadata);
      var filters := CurrentFilters();
      var multiple := dumpMultipleFiles;
      var fixtures: seq<string> := [];
      var fileName: string := "";
      ghost var kept: seq<ClassMetadata> := [];
      for i := 0 to |metadata|
        invariant kept == KeptPrefix(filters, metadata, i)
        invariant fixtures == Fixtures(kept, generator.generate)
        invariant written == old(written) + (if multiple then PerEntityWrites(kept, generator) else [])
        invariant !multiple && kept != [] ==> fileName == generator.createFileName(Last(kept), false)
      {
        var data := metadata[i];
        fixtures, fileName := DumpEntity(filters, multiple, generator, data, fixtures, fileName);
        if !SkipEntity(filters, data) {
          FixturesSnoc(kept, data, generator.generate);
          if multiple {
            PerEntityWritesSnoc(kept, data, generator);
            AppendAssociative(old(written), PerEntityWrites(kept, generator), [(fileName, generator.generate(data))]);
          }
          kept := kept + [data];
        }
      }
      if !multiple && |fixtures| != 0 {
        var fixture := Implode(FixtureSeparator, fixtures);
        WriteFixture(fixture, fileName);
      }
    }
  }
}
