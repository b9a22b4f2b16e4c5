/** Provider-facing tool names: sanitised, at most 64 characters, never shared. */
module ToolNames {
  import opened Json
  import opened Ordering

  datatype Namespace = BuiltIn | Extension(id: string) | Mcp(id: string)
  datatype ToolId = ToolId(namespace: Namespace, name: string)

  const MAX_PROVIDER_NAME_LEN: nat := 64

  // ---------------------------------------------------------------- base names

  predicate IsAsciiAlphanumeric(c: char) {
    '0' <= c <= '9' || 'a' <= c <= 'z' || 'A' <= c <= 'Z'
  }

  predicate IsNameChar(c: char) { IsAsciiAlphanumeric(c) || c == '_' || c == '-' }

  predicate IsProviderName(s: string) {
    |s| <= MAX_PROVIDER_NAME_LEN && forall i | 0 <= i < |s| :: IsNameChar(s[i])
  }

  function SafePart(s: string): string {
    seq(|s|, i requires 0 <= i < |s| => if IsAsciiAlphanumeric(s[i]) then s[i] else '_')
  }

  function RawName(id: ToolId): string {
    match id.namespace
    case BuiltIn => id.name
    case Extension(ext) => "ext_" + SafePart(ext) + "_" + SafePart(id.name)
    case Mcp(server) => "mcp_" + SafePart(server) + "_" + SafePart(id.name)
  }

  function GenerateProviderName(id: ToolId): (r: string)
    ensures IsProviderName(r)
  {
    var raw := RawName(id);
    var sanitized := seq(|raw|, i requires 0 <= i < |raw| => if IsNameChar(raw[i]) then raw[i] else '_');
    if |sanitized| <= MAX_PROVIDER_NAME_LEN then sanitized else sanitized[..MAX_PROVIDER_NAME_LEN]
  }

  /** The name read character by character: as many of them as fit, each
      character of the id kept or replaced by an underscore. */
  ghost predicate SpelledAs(r: string, prefix: string, owner: string, name: string) {
    var a, b := |prefix|, |prefix| + |owner|;
    && |r| == (if b + 1 + |name| <= 64 then b + 1 + |name| else 64)
    && forall i | 0 <= i < |r| ::
         r[i] == if i < a then prefix[i]
                 else if i < b then (if IsAsciiAlphanumeric(owner[i - a]) then owner[i - a] else '_')
                 else if i == b then '_'
                 else if IsAsciiAlphanumeric(name[i - b - 1]) then name[i - b - 1] else '_'
  }

  /** A base name is the longest prefix of its format that fits; built-in tools
      keep hyphens and underscores, the others keep letters and digits only. */
  lemma {:induction false} BaseNameForm(id: ToolId)
    ensures var r := GenerateProviderName(id);
      match id.namespace
      case BuiltIn =>
        && |r| == (if |id.name| <= 64 then |id.name| else 64)
        && forall i | 0 <= i < |r| :: r[i] == if IsNameChar(id.name[i]) then id.name[i] else '_'
      case Extension(owner) => SpelledAs(r, "ext_", owner, id.name)
      case Mcp(owner) => SpelledAs(r, "mcp_", owner, id.name)
  {
    match id.namespace
    case BuiltIn =>
    case Extension(owner) => PrefixedForm(id, "ext_", owner);
    case Mcp(owner) => PrefixedForm(id, "mcp_", owner);
  }

  /** The base name is cut from the raw one, character by character. */
  lemma {:induction false} CutForm(id: ToolId)
    ensures var r, raw := GenerateProviderName(id), RawName(id);
      && |r| == (if |raw| <= 64 then |raw| else 64)
      && forall i | 0 <= i < |r| :: r[i] == if IsNameChar(raw[i]) then raw[i] else '_'
  {
  }

  lemma {:induction false} JoinedAt(p: string, q: string, s: string, i: nat)
    requires i < |p| + |q| + 1 + |s|
    ensures (p + q + "_" + s)[i] == if i < |p| then p[i]
                                    else if i < |p| + |q| then q[i - |p|]
                                    else if i == |p| + |q| then '_'
                                    else s[i - |p| - |q| - 1]
  {
  }

  lemma {:induction false} PrefixedForm(id: ToolId, prefix: string, owner: string)
    requires prefix == "ext_" || prefix == "mcp_"
    requires RawName(id) == prefix + SafePart(owner) + "_" + SafePart(id.name)
    ensures SpelledAs(GenerateProviderName(id), prefix, owner, id.name)
  {
    CutForm(id);
    var r := GenerateProviderName(id);
    var a, b := |prefix|, |prefix| + |owner|;
    forall i | 0 <= i < |r|
      ensures r[i] == if i < a then prefix[i]
                      else if i < b then SafePart(owner)[i - a]
                      else if i == b then '_'
                      else SafePart(id.name)[i - b - 1]
    {
      JoinedAt(prefix, SafePart(owner), SafePart(id.name), i);
    }
  }

  // ------------------------------------------------------------------ suffixes

  function Decimal(n: nat): string {
    if n < 10 then [('0' as int + n) as char] else Decimal(n / 10) + [('0' as int + n % 10) as char]
  }

  function Suffix(n: nat): string { "_" + Decimal(n) }

  function TruncateForSuffix(base: string, suffixLen: nat): string {
    var allowed := if suffixLen <= MAX_PROVIDER_NAME_LEN then MAX_PROVIDER_NAME_LEN - suffixLen else 0;
    if |base| <= allowed then base else base[..allowed]
  }

  /** The base shortened to make room for the suffix `_n`. */
  function Alias(base: string, n: nat): string {
    TruncateForSuffix(base, |Suffix(n)|) + Suffix(n)
  }

  function Pow10(n: nat): nat { if n == 0 then 1 else 10 * Pow10(n - 1) }

  lemma {:induction false} DecimalDigits(n: nat)
    ensures Decimal(n) != "" && forall i | 0 <= i < |Decimal(n)| :: IsDigit(Decimal(n)[i])
  {
    if n >= 10 {
      DecimalDigits(n / 10);
    }
  }

  /** The number a row of digits stands for. */
  function DigitsValue(s: string): int {
    if s == "" then 0 else 10 * DigitsValue(s[..|s| - 1]) + (s[|s| - 1] as int - '0' as int)
  }

  /** The decimal text of a number: its digits, without leading zeros. */
  lemma {:induction false} DecimalMeans(n: nat)
    ensures DigitsValue(Decimal(n)) == n && (Decimal(n)[0] == '0' ==> Decimal(n) == "0")
  {
    DecimalDigits(n);
    var d := Decimal(n);
    if n >= 10 {
      DecimalMeans(n / 10);
      DecimalDigits(n / 10);
      assert d[..|d| - 1] == Decimal(n / 10);
      assert DigitsValue(Decimal(n / 10)) == n / 10;
      assert DigitsValue("0") == 0;
    } else {
      assert d[..0] == "";
    }
  }

  lemma {:induction false} TruncateForm(base: string, suffix: string) returns (kept: nat)
    requires |suffix| <= 64
    ensures kept <= |base| && TruncateForSuffix(base, |suffix|) == base[..kept]
    ensures kept + |suffix| <= 64 && (kept < |base| ==> kept + |suffix| == 64)
  {
    kept := |TruncateForSuffix(base, |suffix|)|;
  }

  ghost predicate IsNumber(digits: string, n: nat) {
    && digits != "" && (forall i | 0 <= i < |digits| :: IsDigit(digits[i]))
    && DigitsValue(digits) == n && (digits[0] == '0' ==> digits == "0")
  }

  /** An alias ends in an underscore and its number, and keeps as much of its
      base as fits into 64 characters. */
  lemma {:induction false} AliasForm(base: string, n: nat) returns (kept: nat, digits: string)
    requires n < Pow10(20)
    ensures IsNumber(digits, n)
    ensures kept <= |base| && Alias(base, n) == base[..kept] + ("_" + digits)
    ensures |Alias(base, n)| <= 64 && (kept < |base| ==> |Alias(base, n)| == 64)
  {
    digits := Decimal(n);
    DecimalDigits(n);
    DecimalMeans(n);
    DecimalLength(n, 20);
    kept := TruncateForm(base, Suffix(n));
  }

  lemma {:induction false} DecimalLength(n: nat, digits: nat)
    requires digits > 0 && n < Pow10(digits)
    ensures |Decimal(n)| <= digits
    decreases digits
  {
    if n >= 10 {
      DecimalLength(n / 10, digits - 1);
    }
  }

  lemma {:induction false} DecimalInjective(m: nat, n: nat)
    requires Decimal(m) == Decimal(n)
    ensures m == n
    decreases m
  {
    DecimalDigits(m / 10);
    DecimalDigits(n / 10);
    var a, b := Decimal(m), Decimal(n);
    if m >= 10 && n >= 10 {
      assert a[|a| - 1] == b[|b| - 1];
      assert a[..|a| - 1] == Decimal(m / 10) && b[..|b| - 1] == Decimal(n / 10);
      DecimalInjective(m / 10, n / 10);
    }
  }

  /** Different suffixes give different names, whatever the bases: the digits
      after the last underscore tell them apart. */
  lemma {:induction false} AliasInjective(base: string, m: nat, other: string, n: nat)
    requires Alias(base, m) == Alias(other, n)
    ensures m == n
  {
    DecimalDigits(m);
    DecimalDigits(n);
    LastUnderscore(TruncateForSuffix(base, |Suffix(m)|), Decimal(m), TruncateForSuffix(other, |Suffix(n)|), Decimal(n));
    DecimalInjective(m, n);
  }

  lemma {:induction false} LastUnderscore(x: string, d: string, y: string, e: string)
    requires x + ("_" + d) == y + ("_" + e)
    requires (forall i | 0 <= i < |d| :: IsDigit(d[i])) && (forall i | 0 <= i < |e| :: IsDigit(e[i]))
    ensures d == e
  {
    var s := x + ("_" + d);
    assert s[|x|] == '_' && s[|y|] == '_';
    assert forall k | |x| < k < |s| :: s[k] == d[k - |x| - 1];
    assert forall k | |y| < k < |s| :: s[k] == e[k - |y| - 1];
    assert |x| == |y|;
    assert d == s[|x| + 1..] && e == s[|y| + 1..];
  }

  lemma {:induction false} AliasIsProviderName(base: string, n: nat)
    requires IsProviderName(base) && n < Pow10(20)
    ensures IsProviderName(Alias(base, n))
  {
    DecimalDigits(n);
    DecimalLength(n, 20);
    var t, s := TruncateForSuffix(base, |Suffix(n)|), Suffix(n);
    assert forall i | 0 <= i < |s| :: IsNameChar(s[i]);
    assert forall i | 0 <= i < |t| :: IsNameChar(t[i]);
  }

  // -------------------------------------------------------- the first free alias

  /** The alias with the least suffix from n on that is not in use.  Removing
      the aliases already tried changes nothing and bounds the search. */
  function FirstFree(base: string, n: nat, used: set<string>): string
    decreases |used|
  {
    var alias := Alias(base, n);
    if alias !in used then alias else FirstFree(base, n + 1, used - {alias})
  }

  /** Pigeonhole: |used| names cannot occupy |used| + 1 different aliases. */
  lemma {:induction false} FirstFreeIsLeast(base: string, n: nat, used: set<string>) returns (m: nat)
    ensures n <= m <= n + |used|
    ensures FirstFree(base, n, used) == Alias(base, m) && Alias(base, m) !in used
    ensures forall k | n <= k < m :: Alias(base, k) in used
    decreases |used|
  {
    var alias := Alias(base, n);
    if alias !in used {
      m := n;
    } else {
      m := FirstFreeIsLeast(base, n + 1, used - {alias});
      if Alias(base, m) == alias {
        AliasInjective(base, m, base, n);
      }
    }
  }

  // ---------------------------------------------------------------- specification

  function Bases(ids: seq<ToolId>): seq<string> {
    seq(|ids|, i requires 0 <= i < |ids| => GenerateProviderName(ids[i]))
  }

  /** How often a base name occurs. */
  function Count(bases: seq<string>, base: string): nat {
    if bases == [] then 0
    else Count(bases[..|bases| - 1], base) + (if bases[|bases| - 1] == base then 1 else 0)
  }

  function PickName(base: string, total: nat, prior: nat, used: set<string>): string {
    var occurrence := prior + 1;
    var candidate := if total == 1 || occurrence == 1 then base else Alias(base, occurrence);
    if candidate in used then FirstFree(base, occurrence, used) else candidate
  }

  /** The name for the i-th base, after the names given to those before it. */
  function NextName(bases: seq<string>, i: nat, earlier: seq<string>): string
    requires i < |bases|
  {
    PickName(bases[i], Count(bases, bases[i]), Count(bases[..i], bases[i]), Elements(earlier))
  }

  type Namer = (nat, seq<string>) -> string

  function NamerFor(bases: seq<string>): Namer {
    (i: nat, earlier: seq<string>) => if i < |bases| then NextName(bases, i, earlier) else ""
  }

  function NamesBy(next: Namer, n: nat): (r: seq<string>)
    ensures |r| == n
  {
    if n == 0 then [] else NamesBy(next, n - 1) + [next(n - 1, NamesBy(next, n - 1))]
  }

  function NamesOf(bases: seq<string>, n: nat): (r: seq<string>)
    ensures |r| == n
  {
    NamesBy(NamerFor(bases), n)
  }

  /** The names of the first n ids. */
  function Names(ids: seq<ToolId>, n: nat): (r: seq<string>)
    requires n <= |ids|
    ensures |r| == n
  {
    NamesOf(Bases(ids), n)
  }

  function Pairs(ids: seq<ToolId>, names: seq<string>): seq<(ToolId, string)>
    requires |ids| == |names|
  {
    seq(|ids|, i requires 0 <= i < |ids| => (ids[i], names[i]))
  }

  function Resolved(ids: seq<ToolId>): seq<(ToolId, string)> { Pairs(ids, Names(ids, |ids|)) }

  // ---------------------------------------------------------------- operations

  method CountBases(ids: seq<ToolId>) returns (counts: map<string, nat>)
    ensures Counted(counts, Bases(ids), |ids|)
  {
    counts := map[];
    ghost var bases := Bases(ids);
    for i := 0 to |ids|
      invariant Counted(counts, bases, i)
    {
      var base := GenerateProviderName(ids[i]);
      NextCounted(counts, bases, i);
      counts := counts[base := CountOf(counts, base) + 1];
    }
  }

  method Disambiguate(base: string, occurrence: nat, used: set<string>) returns (name: string)
    ensures name == FirstFree(base, occurrence, used)
  {
    ghost var m := FirstFreeIsLeast(base, occurrence, used);
    var n := occurrence;
    name := Alias(base, n);
    while name in used
      invariant occurrence <= n <= m && name == Alias(base, n)
      decreases m - n
    {
      n := n + 1;
      name := Alias(base, n);
    }
  }

  /** The body of the resolver's loop. */
  method ProviderNameFor(base: string, total: nat, prior: nat, used: set<string>) returns (name: string)
    ensures name == PickName(base, total, prior, used)
  {
    var occurrence := prior + 1;
    var candidate := if total == 1 || occurrence == 1 then base else Alias(base, occurrence);
    if candidate in used {
      name := Disambiguate(base, occurrence, used);
    } else {
      name := candidate;
    }
  }

  method ResolveProviderNames(ids: seq<ToolId>) returns (out: seq<(ToolId, string)>)
    ensures out == Resolved(ids)
  {
    var baseCounts := CountBases(ids);
    ghost var bases := Bases(ids);
    var seen: map<string, nat> := map[];
    var used: set<string> := {};
    out := [];
    for i := 0 to |ids|
      invariant out == Pairs(ids[..i], NamesOf(bases, i))
      invariant used == Elements(NamesOf(bases, i))
      invariant Counted(seen, bases, i)
    {
      var base := GenerateProviderName(ids[i]);
      var total := if base in baseCounts then baseCounts[base] else 1;
      var prior := CountOf(seen, base);
      CountsItself(bases, i);
      assert bases[..|bases|] == bases;
      var name := ProviderNameFor(base, total, prior, used);
      OneMoreName(bases, i);
      OneMoreElement(NamesOf(bases, i), name);
      NextCounted(seen, bases, i);
      NextPair(ids, NamesOf(bases, i), i, name);
      used := used + {name};
      seen := seen[base := prior + 1];
      out := out + [(ids[i], name)];
    }
    assert ids[..|ids|] == ids;
  }

  lemma {:induction false} NextPair(ids: seq<ToolId>, names: seq<string>, i: nat, name: string)
    requires i < |ids| && |names| == i
    ensures Pairs(ids[..i + 1], names + [name]) == Pairs(ids[..i], names) + [(ids[i], name)]
  {
  }

  lemma {:induction false} OneMoreName(bases: seq<string>, i: nat)
    requires i < |bases|
    ensures NamesOf(bases, i + 1) == NamesOf(bases, i) + [NextName(bases, i, NamesOf(bases, i))]
  {
  }

  lemma {:induction false} OneMoreElement(names: seq<string>, name: string)
    ensures Elements(names + [name]) == Elements(names) + {name}
  {
  }

  // -------------------------------------------------------------------- counting

  /** `counts` holds how often each name occurs among the first i bases. */
  ghost predicate Counted(counts: map<string, nat>, bases: seq<string>, i: nat)
    requires i <= |bases|
  {
    forall base :: Count(bases[..i], base) == CountOf(counts, base)
  }

  function CountOf(counts: map<string, nat>, base: string): nat {
    if base in counts then counts[base] else 0
  }

  lemma {:induction false} NextCount(bases: seq<string>, i: nat, b: string)
    requires i < |bases|
    ensures Count(bases[..i + 1], b) == Count(bases[..i], b) + if bases[i] == b then 1 else 0
  {
    assert bases[..i + 1][..i] == bases[..i];
  }

  lemma {:induction false} NextCounted(counts: map<string, nat>, bases: seq<string>, i: nat)
    requires i < |bases| && Counted(counts, bases, i)
    ensures Counted(counts[bases[i] := CountOf(counts, bases[i]) + 1], bases, i + 1)
  {
    var next := counts[bases[i] := CountOf(counts, bases[i]) + 1];
    var after := bases[..i + 1];
    forall b ensures Count(after, b) == CountOf(next, b) {
      NextCount(bases, i, b);
    }
  }

  lemma {:induction false} CountBound(bases: seq<string>, base: string)
    ensures Count(bases, base) <= |bases|
  {
    if bases != [] {
      CountBound(bases[..|bases| - 1], base);
    }
  }

  lemma {:induction false} CountMonotone(bases: seq<string>, m: nat, n: nat, base: string)
    requires m <= n <= |bases|
    ensures Count(bases[..m], base) <= Count(bases[..n], base)
    decreases n
  {
    if m < n {
      NextCount(bases, n - 1, base);
      CountMonotone(bases, m, n - 1, base);
    }
  }

  lemma {:induction false} CountsItself(bases: seq<string>, i: nat)
    requires i < |bases|
    ensures Count(bases, bases[i]) > Count(bases[..i], bases[i])
  {
    NextCount(bases, i, bases[i]);
    CountMonotone(bases, i + 1, |bases|, bases[i]);
    assert bases[..|bases|] == bases;
  }

  // ------------------------------------------------------------------ properties

  /** A name is the base itself or one of its aliases with a bounded suffix. */
  lemma {:induction false} PickedName(base: string, total: nat, prior: nat, used: set<string>)
    ensures PickName(base, total, prior, used) !in used
    ensures PickName(base, total, prior, used) == base
         || exists m: nat :: m <= prior + 1 + |used| && PickName(base, total, prior, used) == Alias(base, m)
  {
    var m := FirstFreeIsLeast(base, prior + 1, used);
  }

  /** Slices hold at most isize::MAX elements. */
  const MAX_SLICE_LEN: nat := 0x7FFF_FFFF_FFFF_FFFF

  lemma {:induction false} PickedIsLegal(base: string, total: nat, prior: nat, used: set<string>)
    requires IsProviderName(base) && prior + |used| <= 2 * MAX_SLICE_LEN
    ensures IsProviderName(PickName(base, total, prior, used))
  {
    PickedName(base, total, prior, used);
    var name := PickName(base, total, prior, used);
    if name != base {
      var m: nat :| m <= prior + 1 + |used| && name == Alias(base, m);
      EnoughDigits();
      AliasIsProviderName(base, m);
    }
  }

  lemma {:induction false} EnoughDigits()
    ensures 2 * MAX_SLICE_LEN + 2 < Pow10(20)
  {
    assert Pow10(5) == 100000;
    assert Pow10(10) == 10000000000 by { assert Pow10(7) == 10000000; }
    assert Pow10(15) == 1000000000000000 by { assert Pow10(12) == 1000000000000; }
    assert Pow10(17) == 100000000000000000;
  }

  ghost predicate AllLegal(names: seq<string>) { forall s | s in names :: IsProviderName(s) }

  lemma {:induction false} NextIsNew(bases: seq<string>, i: nat, earlier: seq<string>)
    requires i < |bases|
    ensures NextName(bases, i, earlier) !in earlier
  {
    PickedName(bases[i], Count(bases, bases[i]), Count(bases[..i], bases[i]), Elements(earlier));
  }

  lemma {:induction false} NextIsLegal(bases: seq<string>, i: nat, earlier: seq<string>)
    requires i < |bases| <= MAX_SLICE_LEN && |earlier| == i && AllLegal(bases)
    ensures IsProviderName(NextName(bases, i, earlier))
  {
    CountBound(bases[..i], bases[i]);
    ElementsSize(earlier);
    PickedIsLegal(bases[i], Count(bases, bases[i]), Count(bases[..i], bases[i]), Elements(earlier));
  }

  lemma {:induction false} StillDistinct(names: seq<string>, name: string)
    requires Distinct(names) && name !in names
    ensures Distinct(names + [name])
  {
  }

  lemma {:induction false} StillLegal(names: seq<string>, name: string)
    requires AllLegal(names) && IsProviderName(name)
    ensures AllLegal(names + [name])
  {
  }

  lemma {:induction false} FreshNamesAreDistinct(next: Namer, n: nat)
    requires forall i: nat, earlier: seq<string> | i < n :: next(i, earlier) !in earlier
    ensures Distinct(NamesBy(next, n))
  {
    if n > 0 {
      FreshNamesAreDistinct(next, n - 1);
      StillDistinct(NamesBy(next, n - 1), next(n - 1, NamesBy(next, n - 1)));
    }
  }

  /** No two tools share a name. */
  lemma {:induction false} NamesAreDistinct(bases: seq<string>, n: nat)
    requires n <= |bases|
    ensures Distinct(NamesOf(bases, n))
  {
    var next := NamerFor(bases);
    forall i: nat, earlier: seq<string> | i < n ensures next(i, earlier) !in earlier {
      NextIsNew(bases, i, earlier);
    }
    FreshNamesAreDistinct(next, n);
  }

  lemma {:induction false} LegalNames(next: Namer, n: nat)
    requires forall i: nat, earlier: seq<string> | i < n && |earlier| == i :: IsProviderName(next(i, earlier))
    ensures AllLegal(NamesBy(next, n))
  {
    if n > 0 {
      LegalNames(next, n - 1);
      StillLegal(NamesBy(next, n - 1), next(n - 1, NamesBy(next, n - 1)));
    }
  }

  lemma {:induction false} NamesAreLegal(bases: seq<string>, n: nat)
    requires n <= |bases| <= MAX_SLICE_LEN && AllLegal(bases)
    ensures AllLegal(NamesOf(bases, n))
  {
    var next := NamerFor(bases);
    forall i: nat, earlier: seq<string> | i < n && |earlier| == i ensures IsProviderName(next(i, earlier)) {
      NextIsLegal(bases, i, earlier);
    }
    LegalNames(next, n);
  }

  /** At every moment the names handed out are legal provider names, and no two
      tools share one. */
  lemma {:induction false} NamesAreUnique(ids: seq<ToolId>, n: nat)
    requires n <= |ids| <= MAX_SLICE_LEN
    ensures Distinct(Names(ids, n)) && AllLegal(Names(ids, n))
  {
    assert AllLegal(Bases(ids));
    NamesAreDistinct(Bases(ids), n);
    NamesAreLegal(Bases(ids), n);
  }

  /** The resolver keeps ids and their order, and its names are legal and distinct. */
  lemma {:induction false} ResolvedIsInjective(ids: seq<ToolId>)
    requires |ids| <= MAX_SLICE_LEN
    ensures |Resolved(ids)| == |ids|
    ensures forall i | 0 <= i < |ids| :: Resolved(ids)[i].0 == ids[i] && IsProviderName(Resolved(ids)[i].1)
    ensures forall i, j | 0 <= i < j < |ids| :: Resolved(ids)[i].1 != Resolved(ids)[j].1
  {
    NamesAreUnique(ids, |ids|);
    var names := Names(ids, |ids|);
    assert forall i | 0 <= i < |ids| :: Resolved(ids)[i].1 == names[i] && names[i] in names;
  }

  lemma {:induction false} NamesExtend(next: Namer, m: nat, n: nat)
    requires m <= n
    ensures NamesBy(next, n)[..m] == NamesBy(next, m)
    decreases n
  {
    if m < n {
      NamesExtend(next, m, n - 1);
    }
  }

  /** The i-th name of all is the one that the earlier names lead to. */
  lemma {:induction false} NameAt(bases: seq<string>, i: nat)
    requires i < |bases|
    ensures NamesOf(bases, |bases|)[..i] == NamesOf(bases, i)
    ensures NamesOf(bases, |bases|)[i] == NextName(bases, i, NamesOf(bases, i))
  {
    NamesExtend(NamerFor(bases), i, |bases|);
    NamesExtend(NamerFor(bases), i + 1, |bases|);
    OneMoreName(bases, i);
    assert NamesOf(bases, |bases|)[i] == NamesOf(bases, |bases|)[..i + 1][i];
  }

  lemma {:induction false} SeenBaseIsUsed(bases: seq<string>, n: nat, base: string)
    requires n <= |bases| && Count(bases[..n], base) > 0
    ensures base in NamesOf(bases, n)
  {
    NextCount(bases, n - 1, base);
    OneMoreName(bases, n - 1);
    if Count(bases[..n - 1], base) > 0 {
      SeenBaseIsUsed(bases, n - 1, base);
    } else {
      assert base in NamesOf(bases, n - 1) || NextName(bases, n - 1, NamesOf(bases, n - 1)) == base;
    }
  }

  /** A tool keeps its plain base name exactly when no earlier tool was given
      that name. */
  lemma {:induction false} KeepsBaseIffFree(ids: seq<ToolId>, i: nat)
    requires i < |ids|
    ensures Names(ids, |ids|)[i] == Bases(ids)[i] <==> Bases(ids)[i] !in Names(ids, |ids|)[..i]
  {
    var bases := Bases(ids);
    NameAt(bases, i);
    NextIsNew(bases, i, NamesOf(bases, i));
    if bases[i] !in NamesOf(bases, i) && Count(bases[..i], bases[i]) > 0 {
      SeenBaseIsUsed(bases, i, bases[i]);
    }
  }

  // ---------------------------------------------------------- the documented rule

  /** The names the documentation promises: the first occurrence of a base name
      keeps it, and the n-th is suffixed with `_n`. */
  function DocumentedName(bases: seq<string>, i: nat): string
    requires i < |bases|
  {
    var prior := Count(bases[..i], bases[i]);
    if prior == 0 then bases[i] else Alias(bases[i], prior + 1)
  }

  function Documented(bases: seq<string>): seq<string> {
    seq(|bases|, i requires 0 <= i < |bases| => DocumentedName(bases, i))
  }

  /** The resolver takes the documented name whenever it is still free. */
  lemma {:induction false} NextIsDocumentedIfFree(bases: seq<string>, i: nat, earlier: seq<string>)
    requires i < |bases| && DocumentedName(bases, i) !in earlier
    ensures NextName(bases, i, earlier) == DocumentedName(bases, i)
  {
    CountsItself(bases, i);
  }

  lemma {:induction false} NamedAsPromised(next: Namer, all: seq<string>, n: nat)
    requires n <= |all| && forall i: nat | i < n :: next(i, all[..i]) == all[i]
    ensures NamesBy(next, n) == all[..n]
  {
    if n > 0 {
      NamedAsPromised(next, all, n - 1);
      assert all[..n] == all[..n - 1] + [all[n - 1]];
    }
  }

  lemma {:induction false} DocumentedIfDistinct(bases: seq<string>)
    requires Distinct(Documented(bases))
    ensures NamesOf(bases, |bases|) == Documented(bases)
  {
    var next, all := NamerFor(bases), Documented(bases);
    forall i: nat | i < |bases| ensures next(i, all[..i]) == all[i] {
      NotBefore(all, i);
      NextIsDocumentedIfFree(bases, i, all[..i]);
    }
    NamedAsPromised(next, all, |bases|);
    assert all[..|bases|] == all;
  }

  lemma {:induction false} NotBefore(all: seq<string>, n: nat)
    requires n < |all| && Distinct(all)
    ensures all[n] !in all[..n]
  {
  }

  /** The documented rule holds exactly when the names it promises are pairwise
      different, which the ids alone decide. */
  lemma {:induction false} DocumentedIffDistinct(ids: seq<ToolId>)
    ensures Names(ids, |ids|) == Documented(Bases(ids)) <==> Distinct(Documented(Bases(ids)))
  {
    NamesAreDistinct(Bases(ids), |ids|);
    if Distinct(Documented(Bases(ids))) {
      DocumentedIfDistinct(Bases(ids));
    }
  }

  /** It can fail: an alias made for an earlier collision can already be the
      base name of a first occurrence. */
  lemma {:induction false} FirstOccurrenceCanBeRenamed()
    ensures var ids := [ToolId(BuiltIn, "mcp_a_b"), ToolId(Mcp("a"), "b"), ToolId(BuiltIn, "mcp_a_b_2")];
      && Bases(ids)[2] !in Bases(ids)[..2]
      && Names(ids, 3)[2] != Bases(ids)[2]
  {
    var ids := [ToolId(BuiltIn, "mcp_a_b"), ToolId(Mcp("a"), "b"), ToolId(BuiltIn, "mcp_a_b_2")];
    assert RawName(ids[1]) == "mcp_a_b" by { assert SafePart("a") == "a" && SafePart("b") == "b"; }
    var bases := Bases(ids);
    assert GenerateProviderName(ids[0]) == "mcp_a_b" && GenerateProviderName(ids[1]) == "mcp_a_b";
    assert GenerateProviderName(ids[2]) == "mcp_a_b_2";
    assert bases == ["mcp_a_b", "mcp_a_b", "mcp_a_b_2"];
    SecondGetsSuffix(bases);
    OneMoreName(bases, 2);
    NextIsNew(bases, 2, NamesOf(bases, 2));
  }

  lemma {:induction false} SecondGetsSuffix(bases: seq<string>)
    requires bases == ["mcp_a_b", "mcp_a_b", "mcp_a_b_2"]
    ensures "mcp_a_b_2" in NamesOf(bases, 2)
  {
    NextCount(bases, 0, "mcp_a_b");
    NextCount(bases, 1, "mcp_a_b");
    CountsItself(bases, 1);
    assert bases[..0] == [];
    OneMoreName(bases, 0);
    OneMoreName(bases, 1);
    assert Decimal(2) == "2" && Suffix(2) == "_2";
    assert Alias("mcp_a_b", 2) == "mcp_a_b_2";
    assert NextName(bases, 0, []) == "mcp_a_b";
    assert NamesOf(bases, 1) == ["mcp_a_b"];
    assert NextName(bases, 1, ["mcp_a_b"]) == "mcp_a_b_2";
  }

  /** The first n names depend on the first n ids alone: tools added at the end
      never rename the tools before them. */
  lemma {:induction false} NamesAreStable(ids: seq<ToolId>, all: seq<ToolId>, n: nat)
    requires n <= |ids| && n <= |all| && ids[..n] == all[..n]
    ensures Names(ids, n) == Names(all, n)
  {
    forall i | 0 <= i < n ensures Bases(ids)[i] == Bases(all)[i] {
      assert ids[i] == ids[..n][i] == all[..n][i] == all[i];
    }
    assert Bases(ids)[..n] == Bases(all)[..n];
    SameNames(Bases(ids), Bases(all), n);
  }

  lemma {:induction false} SameNames(bases: seq<string>, all: seq<string>, n: nat)
    requires n <= |bases| && n <= |all| && bases[..n] == all[..n]
    ensures NamesOf(bases, n) == NamesOf(all, n)
  {
    if n > 0 {
      Shorter(bases, all, n);
      SameNames(bases, all, n - 1);
      SameNext(bases, all, n - 1);
    }
  }

  lemma {:induction false} Shorter(bases: seq<string>, all: seq<string>, n: nat)
    requires 0 < n <= |bases| && n <= |all| && bases[..n] == all[..n]
    ensures bases[..n - 1] == all[..n - 1] && bases[n - 1] == all[n - 1]
  {
    assert bases[..n][..n - 1] == bases[..n - 1] && all[..n][..n - 1] == all[..n - 1];
    assert bases[..n][n - 1] == all[..n][n - 1];
  }

  lemma {:induction false} SameNext(bases: seq<string>, all: seq<string>, n: nat)
    requires n < |bases| && n < |all| && bases[..n] == all[..n] && bases[n] == all[n]
    requires NamesOf(bases, n) == NamesOf(all, n)
    ensures NamesOf(bases, n + 1) == NamesOf(all, n + 1)
  {
    OneMoreName(bases, n);
    OneMoreName(all, n);
    CountsItself(bases, n);
    CountsItself(all, n);
    TotalIsRedundant(bases[n], Count(bases, bases[n]), Count(all, bases[n]), Count(bases[..n], bases[n]),
                     Elements(NamesOf(bases, n)));
  }

  /** The total only decides a case that the occurrence decides already. */
  lemma {:induction false} TotalIsRedundant(base: string, total: nat, other: nat, prior: nat, used: set<string>)
    requires prior < total && prior < other
    ensures PickName(base, total, prior, used) == PickName(base, other, prior, used)
  {
  }

  // ------------------------------------------------- the mapping built by id

  /** The last alias of an id, as collecting the pairs into a map leaves it. */
  function ById(pairs: seq<(ToolId, string)>): map<ToolId, string> {
    if pairs == [] then map[]
    else
      var n := |pairs| - 1;
      ById(pairs[..n])[pairs[n].0 := pairs[n].1]
  }

  /** Each id takes its map entry out; a repeated id falls back to its base name. */
  function TakeNames(ids: seq<ToolId>, byId: map<ToolId, string>): (r: seq<string>)
    ensures |r| == |ids|
  {
    if ids == [] then []
    else if ids[0] in byId then [byId[ids[0]]] + TakeNames(ids[1..], byId - {ids[0]})
    else [GenerateProviderName(ids[0])] + TakeNames(ids[1..], byId)
  }

  function BuildMapping(ids: seq<ToolId>): seq<string> {
    TakeNames(ids, ById(Resolved(ids)))
  }

  method BuildMappingWithResolution(ids: seq<ToolId>) returns (names: seq<string>)
    ensures names == BuildMapping(ids)
  {
    var resolved := ResolveProviderNames(ids);
    var byId := ById(resolved);
    names := [];
    for i := 0 to |ids|
      invariant BuildMapping(ids) == names + TakeNames(ids[i..], byId)
    {
      var name;
      ghost var before, entries := names, byId;
      if ids[i] in byId {
        name := byId[ids[i]];
        byId := byId - {ids[i]};
      } else {
        name := GenerateProviderName(ids[i]);
      }
      TakeOne(ids, i, entries);
      names := names + [name];
      Reassociate(before, name, TakeNames(ids[i + 1..], byId));
    }
  }

  lemma {:induction false} TakeOne(ids: seq<ToolId>, i: nat, byId: map<ToolId, string>)
    requires i < |ids|
    ensures TakeNames(ids[i..], byId)
         == if ids[i] in byId then [byId[ids[i]]] + TakeNames(ids[i + 1..], byId - {ids[i]})
            else [GenerateProviderName(ids[i])] + TakeNames(ids[i + 1..], byId)
  {
    assert ids[i..][1..] == ids[i + 1..] && ids[i..][0] == ids[i];
  }

  lemma {:induction false} Reassociate(a: seq<string>, x: string, b: seq<string>)
    ensures a + ([x] + b) == a + [x] + b
  {
  }

  lemma {:induction false} ByIdLast(pairs: seq<(ToolId, string)>, i: nat)
    requires i < |pairs| && forall j | i < j < |pairs| :: pairs[j].0 != pairs[i].0
    ensures pairs[i].0 in ById(pairs) && ById(pairs)[pairs[i].0] == pairs[i].1
  {
    var n := |pairs| - 1;
    if i < n {
      ByIdLast(pairs[..n], i);
    }
  }


  lemma {:induction false} TakeFirst(ids: seq<ToolId>, byId: map<ToolId, string>, i: nat)
    requires i < |ids| && ids[i] in byId && forall j | 0 <= j < i :: ids[j] != ids[i]
    ensures TakeNames(ids, byId)[i] == byId[ids[i]]
    decreases i
  {
    if i > 0 {
      TakeFirst(ids[1..], if ids[0] in byId then byId - {ids[0]} else byId, i - 1);
    }
  }

  /** Keying the mapping by id keeps the resolver's names exactly when no id is
      repeated. */
  lemma {:induction false} BuildMappingAgreesIffDistinct(ids: seq<ToolId>)
    requires |ids| <= MAX_SLICE_LEN
    ensures BuildMapping(ids) == Names(ids, |ids|) <==> Distinct(ids)
  {
    if Distinct(ids) {
      MappingAgrees(ids);
    } else {
      MappingDisagrees(ids);
    }
  }

  lemma {:induction false} MappedName(ids: seq<ToolId>, i: nat, j: nat)
    requires i <= j < |ids| && ids[i] == ids[j]
    requires forall k | 0 <= k < i :: ids[k] != ids[i]
    requires forall k | j < k < |ids| :: ids[k] != ids[j]
    ensures BuildMapping(ids)[i] == Names(ids, |ids|)[j]
  {
    ByIdLast(Resolved(ids), j);
    TakeFirst(ids, ById(Resolved(ids)), i);
  }

  lemma {:induction false} MappingAgrees(ids: seq<ToolId>)
    requires Distinct(ids)
    ensures BuildMapping(ids) == Names(ids, |ids|)
  {
    forall i | 0 <= i < |ids| ensures BuildMapping(ids)[i] == Names(ids, |ids|)[i] {
      MappedName(ids, i, i);
    }
  }

  lemma {:induction false} MappingDisagrees(ids: seq<ToolId>)
    requires !Distinct(ids) && |ids| <= MAX_SLICE_LEN
    ensures BuildMapping(ids) != Names(ids, |ids|)
  {
    var i, j := FirstAndLast(ids);
    MappedName(ids, i, j);
    NamesAreUnique(ids, |ids|);
  }

  /** The first and the last place of a repeated id. */
  lemma {:induction false} FirstAndLast(ids: seq<ToolId>) returns (i: nat, j: nat)
    requires !Distinct(ids)
    ensures i < j < |ids| && ids[i] == ids[j]
    ensures forall k | 0 <= k < i :: ids[k] != ids[i]
    ensures forall k | j < k < |ids| :: ids[k] != ids[j]
  {
    i, j :| 0 <= i < j < |ids| && ids[i] == ids[j];
    while exists k :: 0 <= k < i && ids[k] == ids[i]
      invariant i < j < |ids| && ids[i] == ids[j]
      decreases i
    {
      var k :| 0 <= k < i && ids[k] == ids[i];
      i := k;
    }
    while exists k :: j < k < |ids| && ids[k] == ids[j]
      invariant i < j < |ids| && ids[i] == ids[j]
      invariant forall k | 0 <= k < i :: ids[k] != ids[i]
      decreases |ids| - j
    {
      var k :| j < k < |ids| && ids[k] == ids[j];
      j := k;
    }
  }
}
