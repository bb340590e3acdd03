/**
 The order of directory entries: directories first if asked, then the chosen
 field in the chosen direction, then the path. It is built from lawful pieces,
 and the ASCII shortcut for names changes nothing.
 */
module EntryOrder {
  import opened Common

  datatype Ordering = Less | Equal | Greater

  function Reverse(o: Ordering): Ordering {
    match o case Less => Greater case Equal => Equal case Greater => Less
  }

  /** `Ordering::then_with`. */
  function Then(first: Ordering, second: Ordering): Ordering {
    if first.Equal? then second else first
  }

  function Compare(a: int, b: int): Ordering {
    if a < b then Less else if a == b then Equal else Greater
  }

  // ----- lawful comparisons -----

  /** A total preorder: both directions agree, and it is transitive. */
  ghost predicate Lawful<T(!new)>(cmp: (T, T) -> Ordering) {
    && (forall x :: cmp(x, x).Equal?)
    && (forall x, y :: cmp(y, x) == Reverse(cmp(x, y)))
    && (forall x, y, z | !cmp(x, y).Greater? && !cmp(y, z).Greater? :: !cmp(x, z).Greater?)
  }

  lemma ThenLawful<T(!new)>(first: (T, T) -> Ordering, second: (T, T) -> Ordering, both: (T, T) -> Ordering)
    requires Lawful(first) && Lawful(second)
    requires forall x, y :: both(x, y) == Then(first(x, y), second(x, y))
    ensures Lawful(both)
  {
  }

  lemma ReverseLawful<T(!new)>(cmp: (T, T) -> Ordering, reversed: (T, T) -> Ordering)
    requires Lawful(cmp) && forall x, y :: reversed(x, y) == Reverse(cmp(x, y))
    ensures Lawful(reversed)
  {
  }

  lemma KeyLawful<T(!new), K(!new)>(cmp: (K, K) -> Ordering, key: T -> K, keyed: (T, T) -> Ordering)
    requires Lawful(cmp) && forall x, y :: keyed(x, y) == cmp(key(x), key(y))
    ensures Lawful(keyed)
  {
  }

  // ----- strings -----

  function Codes(s: string): seq<int> {
    seq(|s|, i requires 0 <= i < |s| => s[i] as int)
  }

  /** `Iterator::cmp`: lexicographic. */
  function Lex(a: seq<int>, b: seq<int>): Ordering {
    if a == [] then (if b == [] then Equal else Less)
    else if b == [] then Greater
    else Then(Compare(a[0], b[0]), Lex(a[1..], b[1..]))
  }

  lemma {:induction false} LexReflexive(a: seq<int>)
    ensures Lex(a, a).Equal?
  {
    if a != [] {
      LexReflexive(a[1..]);
    }
  }

  lemma {:induction false} LexEqual(a: seq<int>, b: seq<int>)
    requires Lex(a, b).Equal?
    ensures a == b
  {
    if a != [] && b != [] {
      LexEqual(a[1..], b[1..]);
      assert a == [a[0]] + a[1..] && b == [b[0]] + b[1..];
    }
  }

  lemma {:induction false} LexReverse(a: seq<int>, b: seq<int>)
    ensures Lex(b, a) == Reverse(Lex(a, b))
  {
    if a != [] && b != [] {
      LexReverse(a[1..], b[1..]);
    }
  }

  lemma {:induction false} LexTransitive(a: seq<int>, b: seq<int>, c: seq<int>)
    requires !Lex(a, b).Greater? && !Lex(b, c).Greater?
    ensures !Lex(a, c).Greater?
  {
    if a != [] && b != [] && c != [] && a[0] == b[0] && b[0] == c[0] {
      LexTransitive(a[1..], b[1..], c[1..]);
    }
  }

  lemma LexLawful()
    ensures Lawful(Lex)
  {
    forall a
      ensures Lex(a, a).Equal?
    {
      LexReflexive(a);
    }
    forall a, b
      ensures Lex(b, a) == Reverse(Lex(a, b))
    {
      LexReverse(a, b);
    }
    forall a, b, c | !Lex(a, b).Greater? && !Lex(b, c).Greater?
      ensures !Lex(a, c).Greater?
    {
      LexTransitive(a, b, c);
    }
  }

  function CompareStr(a: string, b: string): Ordering {
    Lex(Codes(a), Codes(b))
  }

  lemma CompareStrLawful()
    ensures Lawful(CompareStr)
  {
    LexLawful();
    KeyLawful(Lex, Codes, CompareStr);
  }

  lemma CompareStrEqual(a: string, b: string)
    requires CompareStr(a, b).Equal?
    ensures a == b
  {
    LexEqual(Codes(a), Codes(b));
    assert |a| == |b|;
    forall i | 0 <= i < |a|
      ensures a[i] == b[i]
    {
      assert Codes(a)[i] == Codes(b)[i];
    }
  }

  // ----- names -----

  type Lowercase = char -> string

  predicate IsAscii(s: string) {
    forall i | 0 <= i < |s| :: s[i] < '\U{0080}'
  }

  function AsciiLower(c: char): char {
    if 'A' <= c <= 'Z' then (c as int + 32) as char else c
  }

  /** Unicode lowering keeps ASCII characters single and agrees with the ASCII rule. */
  ghost predicate AgreesOnAscii(lower: Lowercase) {
    forall c: char | c < '\U{0080}' :: lower(c) == [if 'A' <= c <= 'Z' then (c as int + 32) as char else c]
  }

  function LowerAll(s: string, lower: Lowercase): string {
    if s == "" then "" else lower(s[0]) + LowerAll(s[1..], lower)
  }

  function AsciiLowerAll(s: string): string {
    seq(|s|, i requires 0 <= i < |s| => AsciiLower(s[i]))
  }

  /** Case-insensitive, with the exact name as tie-break; a shortcut when both names are ASCII. */
  function CompareNames(lower: Lowercase, a: string, b: string): Ordering {
    if IsAscii(a) && IsAscii(b) then
      Then(CompareStr(AsciiLowerAll(a), AsciiLowerAll(b)), CompareStr(a, b))
    else
      Then(CompareStr(LowerAll(a, lower), LowerAll(b, lower)), CompareStr(a, b))
  }

  lemma {:induction false} AsciiShortcut(lower: Lowercase, s: string)
    requires AgreesOnAscii(lower) && IsAscii(s)
    ensures LowerAll(s, lower) == AsciiLowerAll(s)
  {
    if s != "" {
      AsciiShortcut(lower, s[1..]);
      assert lower(s[0]) == [AsciiLower(s[0])];
      assert AsciiLowerAll(s) == [AsciiLower(s[0])] + AsciiLowerAll(s[1..]);
    }
  }

  /** The shortcut agrees with the Unicode path wherever it is taken. */
  lemma NamesOnePath(lower: Lowercase, a: string, b: string)
    requires AgreesOnAscii(lower)
    ensures CompareNames(lower, a, b) == Then(CompareStr(LowerAll(a, lower), LowerAll(b, lower)), CompareStr(a, b))
  {
    if IsAscii(a) && IsAscii(b) {
      AsciiShortcut(lower, a);
      AsciiShortcut(lower, b);
    }
  }

  lemma NamesLawful(lower: Lowercase, cmp: (string, string) -> Ordering)
    requires AgreesOnAscii(lower) && forall a, b :: cmp(a, b) == CompareNames(lower, a, b)
    ensures Lawful(cmp)
  {
    CompareStrLawful();
    var folded := (a: string, b: string) => CompareStr(LowerAll(a, lower), LowerAll(b, lower));
    KeyLawful(CompareStr, (s: string) => LowerAll(s, lower), folded);
    forall a, b
      ensures cmp(a, b) == Then(folded(a, b), CompareStr(a, b))
    {
      NamesOnePath(lower, a, b);
    }
    ThenLawful(folded, CompareStr, cmp);
  }

  // ----- entries -----

  datatype Kind = Directory | File | Symlink | Other | UnknownKind

  datatype Entry = Entry(name: string, kind: Kind, size: Option<nat>, modifiedAt: Option<Timestamp>, path: string)

  datatype Field = Name | KindField | Size | ModifiedAt

  datatype Sort = Sort(field: Field, ascending: bool, directoriesFirst: bool)

  function KindRank(kind: Kind): int {
    match kind case Directory => 0 case File => 1 case Symlink => 2 case Other => 3 case UnknownKind => 4
  }

  /** `Option`'s order: nothing before something. */
  function CompareOption(a: Option<int>, b: Option<int>): Ordering {
    match (a, b)
    case (None, None) => Equal
    case (None, Some(_)) => Less
    case (Some(_), None) => Greater
    case (Some(x), Some(y)) => Compare(x, y)
  }

  function FieldKey(e: Entry, field: Field): Option<int> {
    match field
    case Name => None
    case KindField => Some(KindRank(e.kind))
    case Size => (match e.size case None => None case Some(n) => Some(n))
    case ModifiedAt => e.modifiedAt
  }

  function CompareField(lower: Lowercase, field: Field, a: Entry, b: Entry): Ordering {
    match field
    case Name => CompareNames(lower, a.name, b.name)
    case KindField =>
      Then(Compare(KindRank(a.kind), KindRank(b.kind)), CompareNames(lower, a.name, b.name))
    case Size =>
      Then(CompareOption(FieldKey(a, Size), FieldKey(b, Size)), CompareNames(lower, a.name, b.name))
    case ModifiedAt =>
      Then(CompareOption(FieldKey(a, ModifiedAt), FieldKey(b, ModifiedAt)), CompareNames(lower, a.name, b.name))
  }

  function CompareEntries(lower: Lowercase, sort: Sort, a: Entry, b: Entry): Ordering {
    if sort.directoriesFirst && a.kind.Directory? && !b.kind.Directory? then Less
    else if sort.directoriesFirst && !a.kind.Directory? && b.kind.Directory? then Greater
    else
      var field := CompareField(lower, sort.field, a, b);
      Then(if sort.ascending then field else Reverse(field), CompareStr(a.path, b.path))
  }

  function Comparator(lower: Lowercase, sort: Sort): (Entry, Entry) -> Ordering {
    (a: Entry, b: Entry) => CompareEntries(lower, sort, a, b)
  }

  lemma FieldLawful(lower: Lowercase, field: Field, cmp: (Entry, Entry) -> Ordering)
    requires AgreesOnAscii(lower) && forall a, b :: cmp(a, b) == CompareField(lower, field, a, b)
    ensures Lawful(cmp)
  {
    var names := (a: string, b: string) => CompareNames(lower, a, b);
    NamesLawful(lower, names);
    var byName := (a: Entry, b: Entry) => CompareNames(lower, a.name, b.name);
    KeyLawful(names, (e: Entry) => e.name, byName);
    var byKey := (a: Entry, b: Entry) => CompareOption(FieldKey(a, field), FieldKey(b, field));
    KeyLawful(CompareOption, (e: Entry) => FieldKey(e, field), byKey);
    ThenLawful(byKey, byName, cmp);
  }

  /** For every sort setting the entry comparison is a total order whose only ties are equal paths. */
  lemma EntriesLawful(lower: Lowercase, sort: Sort)
    requires AgreesOnAscii(lower)
    ensures Lawful(Comparator(lower, sort))
    ensures forall a, b | CompareEntries(lower, sort, a, b).Equal? :: a.path == b.path
  {
    var field := (a: Entry, b: Entry) => CompareField(lower, sort.field, a, b);
    FieldLawful(lower, sort.field, field);
    var directed := (a: Entry, b: Entry) => if sort.ascending then field(a, b) else Reverse(field(a, b));
    if sort.ascending {
      assert forall a, b :: directed(a, b) == field(a, b);
    } else {
      ReverseLawful(field, directed);
    }
    var group := (e: Entry) => if sort.directoriesFirst && !e.kind.Directory? then 1 else 0;
    var grouped := (a: Entry, b: Entry) => Compare(group(a), group(b));
    KeyLawful(Compare, group, grouped);
    CompareStrLawful();
    var byPath := (a: Entry, b: Entry) => CompareStr(a.path, b.path);
    KeyLawful(CompareStr, (e: Entry) => e.path, byPath);
    var inGroup := (a: Entry, b: Entry) => Then(directed(a, b), byPath(a, b));
    ThenLawful(directed, byPath, inGroup);
    ThenLawful(grouped, inGroup, Comparator(lower, sort));
    forall a, b | CompareEntries(lower, sort, a, b).Equal?
      ensures a.path == b.path
    {
      CompareStrEqual(a.path, b.path);
    }
  }

  // ----- what the order means, on the fields of entries -----

  /** Dictionary order: a proper prefix, or the smaller character at the first difference. */
  ghost predicate Before(a: string, b: string) {
    (|a| < |b| && b[..|a|] == a)
    || exists k :: 0 <= k < |a| && k < |b| && a[..k] == b[..k] && a[k] < b[k]
  }

  lemma {:induction false} CompareStrMeans(a: string, b: string)
    ensures CompareStr(a, b).Less? <==> Before(a, b)
  {
    if a == "" || b == "" {
      assert Codes(a) == [] <==> a == "";
      assert Codes(b) == [] <==> b == "";
    } else {
      assert Codes(a)[1..] == Codes(a[1..]) && Codes(b)[1..] == Codes(b[1..]);
      CompareStrMeans(a[1..], b[1..]);
      BeforeTail(a, b);
    }
  }

  lemma BeforeTail(a: string, b: string)
    requires a != "" && b != ""
    ensures Before(a, b) <==> a[0] < b[0] || (a[0] == b[0] && Before(a[1..], b[1..]))
  {
    var at, bt := a[1..], b[1..];
    if a[0] < b[0] {
      assert a[..0] == b[..0];
    }
    if a[0] == b[0] && |at| < |bt| && bt[..|at|] == at {
      assert b[..|a|] == [b[0]] + bt[..|at|] && a == [a[0]] + at;
    }
    if k :| a[0] == b[0] && 0 <= k < |at| && k < |bt| && at[..k] == bt[..k] && at[k] < bt[k] {
      assert a[..k + 1] == [a[0]] + at[..k] && b[..k + 1] == [b[0]] + bt[..k];
    }
    if |a| < |b| && b[..|a|] == a {
      assert b[..|a|][0] == b[0] && b[..|a|][1..] == bt[..|at|];
    }
    if k :| 0 <= k < |a| && k < |b| && a[..k] == b[..k] && a[k] < b[k] {
      if k > 0 {
        assert a[..k][0] == b[..k][0] && a[..k][1..] == at[..k - 1] && b[..k][1..] == bt[..k - 1];
      }
    }
  }

  /** Names go by their lower-cased form, then by themselves. */
  ghost predicate NameBefore(lower: Lowercase, a: string, b: string) {
    || Before(LowerAll(a, lower), LowerAll(b, lower))
    || (LowerAll(a, lower) == LowerAll(b, lower) && Before(a, b))
  }

  /** Nothing is before something; numbers go by size. */
  ghost predicate KnownBefore(a: Option<int>, b: Option<int>) {
    (a.None? && b.Some?) || (a.Some? && b.Some? && a.value < b.value)
  }

  /** Directories, then files, links, other things, and the unknown. */
  ghost predicate KindBefore(a: Kind, b: Kind) {
    match a
    case Directory => !b.Directory?
    case File => b.Symlink? || b.Other? || b.UnknownKind?
    case Symlink => b.Other? || b.UnknownKind?
    case Other => b.UnknownKind?
    case UnknownKind => false
  }

  ghost predicate SizeBefore(a: Entry, b: Entry) {
    (a.size.None? && b.size.Some?) || (a.size.Some? && b.size.Some? && a.size.value < b.size.value)
  }

  /** By the chosen field alone, and when that ties, by the name. */
  ghost predicate FieldBefore(lower: Lowercase, field: Field, a: Entry, b: Entry) {
    match field
    case Name => NameBefore(lower, a.name, b.name)
    case KindField => KindBefore(a.kind, b.kind) || (a.kind == b.kind && NameBefore(lower, a.name, b.name))
    case Size => SizeBefore(a, b) || (a.size == b.size && NameBefore(lower, a.name, b.name))
    case ModifiedAt =>
      || KnownBefore(a.modifiedAt, b.modifiedAt)
      || (a.modifiedAt == b.modifiedAt && NameBefore(lower, a.name, b.name))
  }

  /**
   Directories lead if asked. In a group the field decides, the other way round when
   descending; what is still equal goes by path, in either direction.
   */
  ghost predicate EntryBefore(lower: Lowercase, sort: Sort, a: Entry, b: Entry) {
    if sort.directoriesFirst && a.kind.Directory? != b.kind.Directory? then a.kind.Directory?
    else if sort.ascending && FieldBefore(lower, sort.field, a, b) then true
    else if !sort.ascending && FieldBefore(lower, sort.field, b, a) then true
    else
      && !FieldBefore(lower, sort.field, a, b) && !FieldBefore(lower, sort.field, b, a)
      && Before(a.path, b.path)
  }

  lemma NamesMean(lower: Lowercase, a: string, b: string)
    requires AgreesOnAscii(lower)
    ensures CompareNames(lower, a, b).Less? <==> NameBefore(lower, a, b)
    ensures CompareNames(lower, a, b).Greater? <==> NameBefore(lower, b, a)
    ensures CompareNames(lower, a, b).Equal? <==> a == b
  {
    NamesOnePath(lower, a, b);
    StringsMean(LowerAll(a, lower), LowerAll(b, lower));
    StringsMean(a, b);
  }

  lemma StringsMean(a: string, b: string)
    ensures CompareStr(a, b).Less? <==> Before(a, b)
    ensures CompareStr(a, b).Greater? <==> Before(b, a)
    ensures CompareStr(a, b).Equal? <==> a == b
  {
    CompareStrMeans(a, b);
    CompareStrMeans(b, a);
    LexReverse(Codes(a), Codes(b));
    LexReflexive(Codes(a));
    if CompareStr(a, b).Equal? {
      CompareStrEqual(a, b);
    }
  }

  lemma FieldsMean(lower: Lowercase, field: Field, a: Entry, b: Entry)
    requires AgreesOnAscii(lower)
    ensures CompareField(lower, field, a, b).Less? <==> FieldBefore(lower, field, a, b)
    ensures CompareField(lower, field, a, b).Greater? <==> FieldBefore(lower, field, b, a)
  {
    NamesMean(lower, a.name, b.name);
    match field
    case Name =>
    case KindField => KindsMean(a.kind, b.kind);
    case Size => SizesMean(a, b);
    case ModifiedAt => OptionsMean(a.modifiedAt, b.modifiedAt);
  }

  lemma KindsMean(a: Kind, b: Kind)
    ensures Compare(KindRank(a), KindRank(b)).Less? <==> KindBefore(a, b)
    ensures Compare(KindRank(a), KindRank(b)).Greater? <==> KindBefore(b, a)
    ensures Compare(KindRank(a), KindRank(b)).Equal? <==> a == b
  {
  }

  lemma OptionsMean(a: Option<int>, b: Option<int>)
    ensures CompareOption(a, b).Less? <==> KnownBefore(a, b)
    ensures CompareOption(a, b).Greater? <==> KnownBefore(b, a)
    ensures CompareOption(a, b).Equal? <==> a == b
  {
  }

  lemma SizesMean(a: Entry, b: Entry)
    ensures var o := CompareOption(FieldKey(a, Size), FieldKey(b, Size));
            && (o.Less? <==> SizeBefore(a, b)) && (o.Greater? <==> SizeBefore(b, a)) && (o.Equal? <==> a.size == b.size)
  {
  }

  /** For every sort setting the comparison is this order, in both directions. */
  lemma EntriesMean(lower: Lowercase, sort: Sort, a: Entry, b: Entry)
    requires AgreesOnAscii(lower)
    ensures CompareEntries(lower, sort, a, b).Less? <==> EntryBefore(lower, sort, a, b)
    ensures CompareEntries(lower, sort, a, b).Greater? <==> EntryBefore(lower, sort, b, a)
  {
    FieldsMean(lower, sort.field, a, b);
    StringsMean(a.path, b.path);
  }

  // ----- sorting -----

  ghost predicate SortedBy(cmp: (Entry, Entry) -> Ordering, entries: seq<Entry>) {
    forall i, j | 0 <= i < j < |entries| :: !cmp(entries[i], entries[j]).Greater?
  }

  ghost predicate DistinctPaths(entries: seq<Entry>) {
    forall i, j | 0 <= i < j < |entries| :: entries[i].path != entries[j].path
  }

  /** There is only one way to sort entries with distinct paths, whatever order they came in. */
  lemma {:induction false} SortedOneWay(lower: Lowercase, sort: Sort, xs: seq<Entry>, ys: seq<Entry>)
    requires AgreesOnAscii(lower) && DistinctPaths(xs) && multiset(xs) == multiset(ys)
    requires SortedBy(Comparator(lower, sort), xs) && SortedBy(Comparator(lower, sort), ys)
    ensures xs == ys
  {
    SameLength(xs, ys);
    if xs != [] {
      SameFirst(lower, sort, xs, ys);
      SameTails(xs, ys);
      TailSorted(Comparator(lower, sort), xs);
      TailSorted(Comparator(lower, sort), ys);
      SortedOneWay(lower, sort, xs[1..], ys[1..]);
      assert xs == [xs[0]] + xs[1..] && ys == [ys[0]] + ys[1..];
    }
  }

  lemma SameLength(xs: seq<Entry>, ys: seq<Entry>)
    requires multiset(xs) == multiset(ys)
    ensures |xs| == |ys|
  {
    assert |multiset(xs)| == |xs| && |multiset(ys)| == |ys|;
  }

  lemma SameTails(xs: seq<Entry>, ys: seq<Entry>)
    requires xs != [] && ys != [] && xs[0] == ys[0] && multiset(xs) == multiset(ys)
    ensures multiset(xs[1..]) == multiset(ys[1..])
  {
    assert xs == [xs[0]] + xs[1..] && ys == [ys[0]] + ys[1..];
    assert multiset(xs[1..]) == multiset(xs) - multiset{xs[0]};
    assert multiset(ys[1..]) == multiset(ys) - multiset{ys[0]};
  }

  lemma TailSorted(cmp: (Entry, Entry) -> Ordering, entries: seq<Entry>)
    requires entries != [] && SortedBy(cmp, entries)
    ensures SortedBy(cmp, entries[1..])
    ensures DistinctPaths(entries) ==> DistinctPaths(entries[1..])
  {
  }

  lemma SameFirst(lower: Lowercase, sort: Sort, xs: seq<Entry>, ys: seq<Entry>)
    requires AgreesOnAscii(lower) && DistinctPaths(xs) && multiset(xs) == multiset(ys) && xs != [] && ys != []
    requires SortedBy(Comparator(lower, sort), xs) && SortedBy(Comparator(lower, sort), ys)
    ensures xs[0] == ys[0]
  {
    var cmp := Comparator(lower, sort);
    EntriesLawful(lower, sort);
    assert xs[0] in multiset(ys) && ys[0] in multiset(xs);
    var i :| 0 <= i < |xs| && xs[i] == ys[0];
    var j :| 0 <= j < |ys| && ys[j] == xs[0];
    assert !cmp(xs[0], ys[0]).Greater?;
    assert !cmp(ys[0], xs[0]).Greater?;
    assert cmp(ys[0], xs[0]) == Reverse(cmp(xs[0], ys[0]));
    assert CompareEntries(lower, sort, xs[0], ys[0]).Equal?;
  }
}
