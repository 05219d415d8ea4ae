/** Patching a ComicInfo document: the children of its root are renamed, removed, appended and reordered. */
module ComicInfo {
  import opened Basics

  /** The fields of the ComicInfo 2.1 schema, numbered in schema order. */
  type FieldNo = f: nat | f < 44

  /** The tag of a child of the root. `Miscased` is a spelling that differs from a field's name only in
      case, `Foreign` is namespaced. */
  datatype Tag =
    | Field(index: FieldNo)
    | Miscased(index: FieldNo, spelling: string)
    | IssueAlias(spelling: string)
    | Unknown(name: string)
    | Foreign(namespace: string, name: string)

  /** Empty text and no text are the same in XML. `Other` is a comment or a processing instruction. */
  datatype Node =
    | Element(tag: Tag, attributes: map<string, string>, text: string, children: seq<Node>)
    | Other(content: string)

  const FIELDS: nat := 44
  const NUMBER: FieldNo := 2
  const PAGES: FieldNo := 39

  /** Title, Series, Number, Volume, Year to Imprint, LanguageISO, Format and GTIN. */
  predicate Owned(f: nat) {
    f in {0, 1, 2, 4, 27, 28, 43} || 10 <= f <= 22
  }

  datatype Assignment = Assignment(index: FieldNo, value: string)

  // ---------------------------------------------------------------- single steps on the list of children

  function Canonical(n: Node): Node {
    if n.Element? && n.tag.Miscased? then n.(tag := Field(n.tag.index)) else n
  }

  function CanonicalAll(cs: seq<Node>): seq<Node> {
    seq(|cs|, i requires 0 <= i < |cs| => Canonical(cs[i]))
  }

  /** Known fields come in schema order, everything else after them. */
  function Key(n: Node): nat {
    if n.Element? && n.tag.Field? then n.tag.index else FIELDS
  }

  function ByKey(cs: seq<Node>, k: nat): seq<Node> {
    if cs == [] then []
    else
      var rest := ByKey(cs[..|cs| - 1], k);
      if Key(cs[|cs| - 1]) == k then rest + [cs[|cs| - 1]] else rest
  }

  predicate IsAlias(n: Node) {
    n.Element? && n.tag.IssueAlias?
  }

  function Aliases(cs: seq<Node>): seq<Node> {
    if cs == [] then []
    else
      var rest := Aliases(cs[..|cs| - 1]);
      if IsAlias(cs[|cs| - 1]) then rest + [cs[|cs| - 1]] else rest
  }

  function WithoutAliases(cs: seq<Node>): seq<Node> {
    if cs == [] then []
    else
      var rest := WithoutAliases(cs[..|cs| - 1]);
      if IsAlias(cs[|cs| - 1]) then rest else rest + [cs[|cs| - 1]]
  }

  function Without(cs: seq<Node>, f: nat): seq<Node> {
    if cs == [] then []
    else
      var rest := Without(cs[..|cs| - 1], f);
      if Key(cs[|cs| - 1]) == f then rest else rest + [cs[|cs| - 1]]
  }

  /** The first child with key `f` gets the text; without one, a new element is appended. */
  function WithText(cs: seq<Node>, a: Assignment): seq<Node> {
    if ByKey(cs, a.index) == [] then cs + [Fresh(a)]
    else if Key(cs[|cs| - 1]) == a.index && ByKey(cs[..|cs| - 1], a.index) == []
      then cs[..|cs| - 1] + [Retexted(cs[|cs| - 1], a.value)]
      else WithText(cs[..|cs| - 1], a) + [cs[|cs| - 1]]
  }

  function Fresh(a: Assignment): Node {
    Element(Field(a.index), map[], a.value, [])
  }

  function Retexted(n: Node, value: string): Node {
    if n.Element? then n.(text := value) else n
  }

  /** Insert after every child with the same or a smaller key. */
  function Inserted(cs: seq<Node>, n: Node): (r: seq<Node>)
    ensures |r| == |cs| + 1 && forall i :: 0 <= i < |r| ==> r[i] == n || r[i] in cs
  {
    if cs == [] || Key(cs[|cs| - 1]) <= Key(n) then cs + [n]
    else Inserted(cs[..|cs| - 1], n) + [cs[|cs| - 1]]
  }

  function Ordered(cs: seq<Node>): seq<Node> {
    if cs == [] then [] else Inserted(Ordered(cs[..|cs| - 1]), cs[|cs| - 1])
  }

  // ---------------------------------------------------------------- the patch

  /** The characters that count as white space. */
  predicate Blank(c: char) {
    || '\U{0009}' <= c <= '\U{000D}' || '\U{001C}' <= c <= ' '
    || c in {'\U{0085}', '\U{00A0}', '\U{1680}', '\U{2028}', '\U{2029}', '\U{202F}', '\U{205F}', '\U{3000}'}
    || '\U{2000}' <= c <= '\U{200A}'
  }

  function Strip(s: string): string {
    if s == "" then ""
    else if Blank(s[0]) then Strip(s[1..])
    else if Blank(s[|s| - 1]) then Strip(s[..|s| - 1])
    else s
  }

  predicate Digits(s: string) {
    s != "" && forall c :: c in s ==> '0' <= c <= '9'
  }

  function Number(s: string): nat {
    if s == "" then 0
    else 10 * Number(s[..|s| - 1]) + if '0' <= s[|s| - 1] <= '9' then (s[|s| - 1] as int) - ('0' as int) else 0
  }

  /** An Issue value that says the same as the planned Number. */
  predicate SameNumber(legacy: string, planned: string) {
    legacy == planned || (Digits(legacy) && Digits(planned) && Number(legacy) == Number(planned))
  }

  predicate Sets(sets: seq<Assignment>, f: nat) {
    exists a :: a in sets && a.index == f
  }

  function ValueOf(sets: seq<Assignment>, f: nat): string {
    if sets == [] then ""
    else if sets[|sets| - 1].index == f then sets[|sets| - 1].value
    else ValueOf(sets[..|sets| - 1], f)
  }

  /** The unnamespaced Issue alias goes when Number is planned; a conflict or a duplicate is an error. */
  function AliasDropped(cs: seq<Node>, sets: seq<Assignment>): Option<seq<Node>> {
    var aliases := Aliases(cs);
    if aliases == [] then Some(cs)
    else if |aliases| > 1 then None
    else if !Sets(sets, NUMBER) then Some(cs)
    else
      var legacy := if aliases[0].Element? then Strip(aliases[0].text) else "";
      if legacy != "" && !SameNumber(legacy, Strip(ValueOf(sets, NUMBER))) then None
      else Some(WithoutAliases(cs))
  }

  predicate Unambiguous(cs: seq<Node>) {
    forall f :: 0 <= f < FIELDS && Owned(f) ==> |ByKey(cs, f)| <= 1
  }

  function ClearedAll(cs: seq<Node>, clears: seq<nat>): seq<Node> {
    if clears == [] then cs else Without(ClearedAll(cs, clears[..|clears| - 1]), clears[|clears| - 1])
  }

  predicate OwnedOnly(sets: seq<Assignment>, clears: seq<nat>) {
    (forall a :: a in sets ==> Owned(a.index)) && (forall f :: f in clears ==> Owned(f))
  }

  function SetAll(cs: seq<Node>, sets: seq<Assignment>): seq<Node> {
    if sets == [] then cs else WithText(SetAll(cs, sets[..|sets| - 1]), sets[|sets| - 1])
  }

  /** The patched children; None where the patch is refused. `valid` is the schema validation. */
  function Patched(cs: seq<Node>, sets: seq<Assignment>, clears: seq<nat>,
                   valid: seq<Node> -> bool): Option<seq<Node>> {
    if !OwnedOnly(sets, clears) then None
    else
      var dropped := AliasDropped(CanonicalAll(cs), sets);
      if dropped.None? || !Unambiguous(dropped.value) then None
      else
        var r := Ordered(SetAll(ClearedAll(dropped.value, clears), sets));
        if valid(r) then Some(r) else None
  }

  // ---------------------------------------------------------------- the parts by key

  predicate InOrder(cs: seq<Node>) {
    forall i, j :: 0 <= i <= j < |cs| ==> Key(cs[i]) <= Key(cs[j])
  }

  lemma ByKeyAppend(cs: seq<Node>, n: Node, k: nat)
    ensures ByKey(cs + [n], k) == if Key(n) == k then ByKey(cs, k) + [n] else ByKey(cs, k)
  {
    assert (cs + [n])[..|cs|] == cs;
  }

  lemma {:induction false} ByKeyKeys(cs: seq<Node>, k: nat)
    ensures forall i :: 0 <= i < |ByKey(cs, k)| ==> Key(ByKey(cs, k)[i]) == k
    ensures ByKey(cs, k) == [] <==> forall n :: n in cs ==> Key(n) != k
  {
    if cs != [] {
      ByKeyKeys(cs[..|cs| - 1], k);
      assert cs == cs[..|cs| - 1] + [cs[|cs| - 1]];
    }
  }

  lemma {:induction false} InsertedInOrder(cs: seq<Node>, n: Node)
    requires InOrder(cs)
    ensures InOrder(Inserted(cs, n))
  {
    if cs != [] && Key(cs[|cs| - 1]) > Key(n) {
      InsertedInOrder(cs[..|cs| - 1], n);
    }
  }

  lemma {:induction false} InsertedByKey(cs: seq<Node>, n: Node, k: nat)
    requires InOrder(cs)
    ensures ByKey(Inserted(cs, n), k) == if Key(n) == k then ByKey(cs, k) + [n] else ByKey(cs, k)
  {
    if cs == [] || Key(cs[|cs| - 1]) <= Key(n) {
      ByKeyAppend(cs, n, k);
    } else {
      var rest, last := cs[..|cs| - 1], cs[|cs| - 1];
      InsertedByKey(rest, n, k);
      ByKeyAppend(Inserted(rest, n), last, k);
      if Key(n) == k && Key(last) == k { assert false; }
    }
  }

  /** The stable sort: in schema order, and equal keys keep their order. */
  lemma {:induction false} OrderedStable(cs: seq<Node>)
    ensures InOrder(Ordered(cs)) && forall k :: ByKey(Ordered(cs), k) == ByKey(cs, k)
  {
    if cs != [] {
      var rest, n := cs[..|cs| - 1], cs[|cs| - 1];
      OrderedStable(rest);
      InsertedInOrder(Ordered(rest), n);
      forall k ensures ByKey(Ordered(cs), k) == ByKey(cs, k) { InsertedByKey(Ordered(rest), n, k); }
    }
  }

  /** A list in order is determined by its parts. */
  lemma {:induction false} PartsDetermine(a: seq<Node>, b: seq<Node>)
    requires InOrder(a) && InOrder(b) && forall k :: ByKey(a, k) == ByKey(b, k)
    ensures a == b
  {
    if a == [] || b == [] {
      if a != [] { ByKeyKeys(a, Key(a[0])); ByKeyKeys(b, Key(a[0])); }
      if b != [] { ByKeyKeys(a, Key(b[0])); ByKeyKeys(b, Key(b[0])); }
    } else {
      var x, y := a[|a| - 1], b[|b| - 1];
      LastKeys(a, b);
      LastKeys(b, a);
      var a', b' := a[..|a| - 1], b[..|b| - 1];
      assert x == ByKey(a, Key(x))[|ByKey(a, Key(x))| - 1] && y == ByKey(b, Key(x))[|ByKey(b, Key(x))| - 1];
      forall k ensures ByKey(a', k) == ByKey(b', k) {
        assert ByKey(a, k) == if Key(x) == k then ByKey(a', k) + [x] else ByKey(a', k);
        assert ByKey(b, k) == if Key(x) == k then ByKey(b', k) + [x] else ByKey(b', k);
        assert ByKey(a', k) == ByKey(a, k)[..|ByKey(a', k)|];
      }
      PartsDetermine(a', b');
      assert a == a' + [x] && b == b' + [x];
    }
  }

  lemma LastKeys(a: seq<Node>, b: seq<Node>)
    requires a != [] && b != [] && InOrder(a) && InOrder(b) && forall k :: ByKey(a, k) == ByKey(b, k)
    ensures Key(a[|a| - 1]) <= Key(b[|b| - 1])
  {
    var k := Key(a[|a| - 1]);
    assert a[|a| - 1] in a;
    ByKeyKeys(a, k);
    ByKeyKeys(b, k);
    var i :| 0 <= i < |b| && Key(b[i]) == k;
  }

  lemma {:induction false} WithoutParts(cs: seq<Node>, f: nat, k: nat)
    ensures ByKey(Without(cs, f), k) == if k == f then [] else ByKey(cs, k)
  {
    if cs != [] {
      var rest, n := cs[..|cs| - 1], cs[|cs| - 1];
      WithoutParts(rest, f, k);
      ByKeyAppend(Without(rest, f), n, k);
    }
  }

  /** What an assignment does to the elements of its field. */
  function PutOne(l: seq<Node>, a: Assignment): seq<Node> {
    if l == [] then [Fresh(a)] else [Retexted(l[0], a.value)] + l[1..]
  }

  lemma PutOneAppend(l: seq<Node>, n: Node, a: Assignment)
    requires l != []
    ensures PutOne(l + [n], a) == PutOne(l, a) + [n]
  {
    assert (l + [n])[0] == l[0] && (l + [n])[1..] == l[1..] + [n];
  }

  lemma {:induction false} WithTextParts(cs: seq<Node>, a: Assignment, k: nat)
    ensures ByKey(WithText(cs, a), k) == if k == a.index then PutOne(ByKey(cs, k), a) else ByKey(cs, k)
  {
    if ByKey(cs, a.index) == [] {
      ByKeyAppend(cs, Fresh(a), k);
    } else {
      var rest, n := cs[..|cs| - 1], cs[|cs| - 1];
      if Key(n) == a.index && ByKey(rest, a.index) == [] {
        ByKeyAppend(rest, Retexted(n, a.value), k);
        assert PutOne([n], a) == [Retexted(n, a.value)];
      } else {
        WithTextParts(rest, a, k);
        ByKeyAppend(WithText(rest, a), n, k);
        if k == a.index && Key(n) == k { PutOneAppend(ByKey(rest, k), n, a); }
        hide PutOne;
      }
    }
  }

  lemma {:induction false} WithoutAliasesParts(cs: seq<Node>, k: nat)
    ensures ByKey(WithoutAliases(cs), k) == if k == FIELDS then WithoutAliases(ByKey(cs, k)) else ByKey(cs, k)
  {
    if cs != [] {
      var rest, n := cs[..|cs| - 1], cs[|cs| - 1];
      WithoutAliasesParts(rest, k);
      ByKeyAppend(WithoutAliases(rest), n, k);
      var l := ByKey(rest, k);
      assert (l + [n])[..|l|] == l;
    }
  }

  lemma {:induction false} AliasesByKey(cs: seq<Node>)
    ensures Aliases(cs) == Aliases(ByKey(cs, FIELDS))
  {
    if cs != [] {
      var rest, n := cs[..|cs| - 1], cs[|cs| - 1];
      AliasesByKey(rest);
      var l := ByKey(rest, FIELDS);
      assert (l + [n])[..|l|] == l;
    }
  }

  lemma {:induction false} AliasesGone(cs: seq<Node>)
    ensures Aliases(WithoutAliases(cs)) == []
  {
    if cs != [] {
      var rest, n := cs[..|cs| - 1], cs[|cs| - 1];
      AliasesGone(rest);
      var l := WithoutAliases(rest);
      assert (l + [n])[..|l|] == l;
    }
  }

  function Put(l: seq<Node>, k: nat, sets: seq<Assignment>): seq<Node> {
    if sets == [] then l
    else
      var m := Put(l, k, sets[..|sets| - 1]);
      if sets[|sets| - 1].index == k then PutOne(m, sets[|sets| - 1]) else m
  }

  lemma {:induction false} SetParts(cs: seq<Node>, sets: seq<Assignment>, k: nat)
    ensures ByKey(SetAll(cs, sets), k) == Put(ByKey(cs, k), k, sets)
  {
    if sets != [] {
      SetParts(cs, sets[..|sets| - 1], k);
      WithTextParts(SetAll(cs, sets[..|sets| - 1]), sets[|sets| - 1], k);
    }
  }

  lemma {:induction false} ClearParts(cs: seq<Node>, clears: seq<nat>, k: nat)
    ensures ByKey(ClearedAll(cs, clears), k) == if k in clears then [] else ByKey(cs, k)
  {
    if clears != [] {
      var rest := clears[..|clears| - 1];
      ClearParts(cs, rest, k);
      WithoutParts(ClearedAll(cs, rest), clears[|clears| - 1], k);
      assert clears == rest + [clears[|clears| - 1]];
    }
  }

  /** The element a single-valued field ends up with. */
  lemma {:induction false} PutExactly(l: seq<Node>, k: FieldNo, sets: seq<Assignment>)
    requires |l| <= 1 && forall n :: n in l ==> n.Element?
    ensures Put(l, k, sets) == if !Sets(sets, k) then l
                               else if l == [] then [Fresh(Assignment(k, ValueOf(sets, k)))]
                               else [l[0].(text := ValueOf(sets, k))]
  {
    if sets != [] {
      var rest, a := sets[..|sets| - 1], sets[|sets| - 1];
      PutExactly(l, k, rest);
      assert Sets(sets, k) <==> Sets(rest, k) || a.index == k by { assert sets == rest + [a]; }
      assert l != [] ==> l[0] in l;
    }
  }

  /** What the patch makes of the elements with one key. */
  function Effect(l: seq<Node>, k: nat, sets: seq<Assignment>, clears: seq<nat>): seq<Node> {
    Put(if k in clears then [] else l, k, sets)
  }

  lemma ResultParts(d: seq<Node>, sets: seq<Assignment>, clears: seq<nat>)
    ensures var r := Ordered(SetAll(ClearedAll(d, clears), sets));
            InOrder(r) && forall k :: ByKey(r, k) == Effect(ByKey(d, k), k, sets, clears)
  {
    var s := SetAll(ClearedAll(d, clears), sets);
    OrderedStable(s);
    forall k ensures ByKey(Ordered(s), k) == Effect(ByKey(d, k), k, sets, clears) {
      SetParts(ClearedAll(d, clears), sets, k);
      ClearParts(d, clears, k);
    }
  }

  lemma {:induction false} PutForeign(l: seq<Node>, k: nat, sets: seq<Assignment>)
    requires !Sets(sets, k)
    ensures Put(l, k, sets) == l
  {
    if sets != [] {
      var rest, a := sets[..|sets| - 1], sets[|sets| - 1];
      assert a in sets && forall b :: b in rest ==> b in sets;
      PutForeign(l, k, rest);
    }
  }

  lemma ByKeyElements(cs: seq<Node>, k: FieldNo)
    ensures forall n :: n in ByKey(cs, k) ==> n.Element? && n.tag == Field(k)
  {
    ByKeyKeys(cs, k);
  }

  lemma EffectTwice(cs: seq<Node>, k: nat, sets: seq<Assignment>, clears: seq<nat>)
    requires OwnedOnly(sets, clears) && (k < FIELDS && Owned(k) ==> |ByKey(cs, k)| <= 1)
    ensures var l := ByKey(cs, k);
            Effect(Effect(l, k, sets, clears), k, sets, clears) == Effect(l, k, sets, clears)
    ensures !Owned(k) ==> Effect(ByKey(cs, k), k, sets, clears) == ByKey(cs, k)
    ensures k < FIELDS && Owned(k) ==> |Effect(ByKey(cs, k), k, sets, clears)| <= 1
  {
    var l := ByKey(cs, k);
    if !Sets(sets, k) {
      PutForeign(l, k, sets);
      PutForeign([], k, sets);
    } else {
      ByKeyElements(cs, k);
      var m := if k in clears then [] else l;
      PutExactly(m, k, sets);
      var e := Put(m, k, sets);
      PutExactly(if k in clears then [] else e, k, sets);
    }
  }

  // ---------------------------------------------------------------- nothing stays miscased

  ghost predicate AllCanonical(cs: seq<Node>) {
    forall n :: n in cs ==> Canonical(n) == n
  }

  lemma CanonicalStays(cs: seq<Node>)
    ensures AllCanonical(CanonicalAll(cs))
    ensures AllCanonical(cs) ==> CanonicalAll(cs) == cs
  {
    if AllCanonical(cs) { assert forall i :: 0 <= i < |cs| ==> cs[i] in cs; }
  }

  lemma {:induction false} AliasesCanonical(cs: seq<Node>)
    requires AllCanonical(cs)
    ensures AllCanonical(WithoutAliases(cs))
  {
    if cs != [] {
      assert forall n :: n in cs[..|cs| - 1] ==> n in cs;
      AliasesCanonical(cs[..|cs| - 1]);
      assert cs[|cs| - 1] in cs;
    }
  }

  lemma {:induction false} WithoutCanonical(cs: seq<Node>, f: nat)
    requires AllCanonical(cs)
    ensures AllCanonical(Without(cs, f))
  {
    if cs != [] {
      assert forall n :: n in cs[..|cs| - 1] ==> n in cs;
      WithoutCanonical(cs[..|cs| - 1], f);
      assert cs[|cs| - 1] in cs;
    }
  }

  lemma {:induction false} WithTextCanonical(cs: seq<Node>, a: Assignment)
    requires AllCanonical(cs)
    ensures AllCanonical(WithText(cs, a))
  {
    if ByKey(cs, a.index) != [] {
      var rest, n := cs[..|cs| - 1], cs[|cs| - 1];
      assert n in cs && Canonical(n) == n;
      assert forall x :: x in rest ==> x in cs;
      if !(Key(n) == a.index && ByKey(rest, a.index) == []) { WithTextCanonical(rest, a); }
    }
  }

  lemma {:induction false} OrderedCanonical(cs: seq<Node>)
    requires AllCanonical(cs)
    ensures AllCanonical(Ordered(cs))
  {
    if cs != [] {
      var rest, n := cs[..|cs| - 1], cs[|cs| - 1];
      assert n in cs && forall x :: x in rest ==> x in cs;
      OrderedCanonical(rest);
      var r := Inserted(Ordered(rest), n);
      forall x | x in r ensures Canonical(x) == x { var i :| 0 <= i < |r| && r[i] == x; }
    }
  }

  lemma {:induction false} ClearedCanonical(cs: seq<Node>, clears: seq<nat>)
    requires AllCanonical(cs)
    ensures AllCanonical(ClearedAll(cs, clears))
  {
    if clears != [] {
      ClearedCanonical(cs, clears[..|clears| - 1]);
      WithoutCanonical(ClearedAll(cs, clears[..|clears| - 1]), clears[|clears| - 1]);
    }
  }

  lemma {:induction false} SetCanonical(cs: seq<Node>, sets: seq<Assignment>)
    requires AllCanonical(cs)
    ensures AllCanonical(SetAll(cs, sets))
  {
    if sets != [] {
      SetCanonical(cs, sets[..|sets| - 1]);
      WithTextCanonical(SetAll(cs, sets[..|sets| - 1]), sets[|sets| - 1]);
    }
  }

  lemma NoneMiscased(cs: seq<Node>)
    requires AllCanonical(cs)
    ensures forall n :: n in cs ==> !(n.Element? && n.tag.Miscased?)
  {
  }

  // ---------------------------------------------------------------- the theorems

  /** The children the patch starts from: canonical spelling, redundant alias gone. */
  ghost predicate Base(cs: seq<Node>, sets: seq<Assignment>, d: seq<Node>) {
    AliasDropped(CanonicalAll(cs), sets) == Some(d)
  }

  lemma PatchedFrom(cs: seq<Node>, sets: seq<Assignment>, clears: seq<nat>,
                    valid: seq<Node> -> bool) returns (d: seq<Node>)
    requires Patched(cs, sets, clears, valid).Some?
    ensures OwnedOnly(sets, clears) && Base(cs, sets, d) && Unambiguous(d) && AllCanonical(d)
    ensures var r := Patched(cs, sets, clears, valid).value;
            && valid(r) && AllCanonical(r) && InOrder(r)
            && r == Ordered(SetAll(ClearedAll(d, clears), sets))
            && forall k :: ByKey(r, k) == Effect(ByKey(d, k), k, sets, clears)
  {
    var c := CanonicalAll(cs);
    d := AliasDropped(c, sets).value;
    CanonicalStays(cs);
    AliasesCanonical(c);
    ClearedCanonical(d, clears);
    SetCanonical(ClearedAll(d, clears), sets);
    OrderedCanonical(SetAll(ClearedAll(d, clears), sets));
    ResultParts(d, sets, clears);
  }

  lemma BaseAliases(cs: seq<Node>, sets: seq<Assignment>, d: seq<Node>)
    requires Base(cs, sets, d)
    ensures Aliases(d) == [] || (|Aliases(d)| == 1 && !Sets(sets, NUMBER))
  {
    AliasesGone(CanonicalAll(cs));
  }

  /** Clearing, setting and ordering again what was just cleared, set and ordered. */
  lemma Resettled(d: seq<Node>, r: seq<Node>, sets: seq<Assignment>, clears: seq<nat>)
    requires OwnedOnly(sets, clears) && Unambiguous(d) && InOrder(r)
    requires forall k :: ByKey(r, k) == Effect(ByKey(d, k), k, sets, clears)
    ensures Ordered(SetAll(ClearedAll(r, clears), sets)) == r && Unambiguous(r) && Aliases(r) == Aliases(d)
  {
    forall k: nat
      ensures Effect(ByKey(r, k), k, sets, clears) == ByKey(r, k) && (k < FIELDS && Owned(k) ==> |ByKey(r, k)| <= 1)
    {
      EffectTwice(d, k, sets, clears);
    }
    EffectTwice(d, FIELDS, sets, clears);
    AliasesByKey(r);
    AliasesByKey(d);
    ResultParts(r, sets, clears);
    PartsDetermine(Ordered(SetAll(ClearedAll(r, clears), sets)), r);
  }

  /** Patching a patched document again changes nothing. */
  lemma PatchIdempotent(cs: seq<Node>, sets: seq<Assignment>, clears: seq<nat>, valid: seq<Node> -> bool)
    requires Patched(cs, sets, clears, valid).Some?
    ensures Patched(Patched(cs, sets, clears, valid).value, sets, clears, valid) == Patched(cs, sets, clears, valid)
  {
    var d := PatchedFrom(cs, sets, clears, valid);
    var r := Patched(cs, sets, clears, valid).value;
    hide AllCanonical, Effect, InOrder, OwnedOnly, Unambiguous, ByKey;
    CanonicalStays(r);
    Resettled(d, r, sets, clears);
    BaseAliases(cs, sets, d);
    assert AliasDropped(r, sets) == Some(r);
  }

  /** What reading a field back gives. */
  function FieldText(cs: seq<Node>, f: FieldNo): Option<string> {
    var l := ByKey(cs, f);
    if l != [] && l[0].Element? && l[0].text != "" then Some(Strip(l[0].text)) else None
  }

  /** An element of field `f`, in whatever case its tag is written. */
  predicate Spelt(n: Node, f: FieldNo) {
    n.Element? && (n.tag == Field(f) || (n.tag.Miscased? && n.tag.index == f))
  }

  /** What a document as it is written says in a field: the text of its first element. */
  function WrittenText(cs: seq<Node>, f: FieldNo): Option<string> {
    if cs == [] then None
    else if Spelt(cs[0], f) then if cs[0].Element? && cs[0].text != "" then Some(Strip(cs[0].text)) else None
    else WrittenText(cs[1..], f)
  }

  lemma ByKeyFront(n: Node, cs: seq<Node>, k: nat)
    ensures ByKey([n] + cs, k) == (if Key(n) == k then [n] else []) + ByKey(cs, k)
    decreases |cs|
  {
    if cs == [] {
      assert [n] + cs == [n] && [n][..0] == [];
    } else {
      assert ([n] + cs)[..|cs|] == [n] + cs[..|cs| - 1];
      ByKeyFront(n, cs[..|cs| - 1], k);
    }
  }

  lemma {:induction false} CanonicalReads(cs: seq<Node>, f: FieldNo)
    ensures FieldText(CanonicalAll(cs), f) == WrittenText(cs, f)
  {
    hide Strip;
    if cs != [] {
      var n, rest := cs[0], cs[1..];
      CanonicalReads(rest, f);
      assert CanonicalAll(cs) == [Canonical(n)] + CanonicalAll(rest);
      ByKeyFront(Canonical(n), CanonicalAll(rest), f);
    }
  }

  lemma BaseParts(cs: seq<Node>, sets: seq<Assignment>, d: seq<Node>, f: FieldNo)
    requires Base(cs, sets, d)
    ensures ByKey(d, f) == ByKey(CanonicalAll(cs), f)
  {
    WithoutAliasesParts(CanonicalAll(cs), f);
  }

  /** Read-back: a set field has its value, unless that is empty; a cleared field is absent; and every
      other owned field reads as before, whatever the case its tag was written in. */
  lemma PatchReadsBack(cs: seq<Node>, sets: seq<Assignment>, clears: seq<nat>, valid: seq<Node> -> bool, f: FieldNo)
    requires Patched(cs, sets, clears, valid).Some? && Owned(f)
    ensures var r := Patched(cs, sets, clears, valid).value;
            && |ByKey(r, f)| <= 1
            && FieldText(r, f) ==
                 if Sets(sets, f) then (if ValueOf(sets, f) == "" then None else Some(Strip(ValueOf(sets, f))))
                 else if f in clears then None
                 else WrittenText(cs, f)
    ensures forall n :: n in Patched(cs, sets, clears, valid).value ==> !(n.Element? && n.tag.Miscased?)
  {
    hide Strip, AllCanonical, InOrder, Ordered, SetAll, ClearedAll, CanonicalAll, AliasDropped, Aliases;
    var d := PatchedFrom(cs, sets, clears, valid);
    BaseParts(cs, sets, d, f);
    CanonicalReads(cs, f);
    NoneMiscased(Patched(cs, sets, clears, valid).value);
    EffectTwice(d, f, sets, clears);
    ByKeyElements(d, f);
    PutExactly(if f in clears then [] else ByKey(d, f), f, sets);
  }

  /** What the schema does not know, in the order of the document. */
  function Foreigners(cs: seq<Node>): seq<Node> {
    if cs == [] then []
    else
      var rest, n := Foreigners(cs[..|cs| - 1]), cs[|cs| - 1];
      if n.Element? && (n.tag.Field? || n.tag.Miscased?) then rest else rest + [n]
  }

  lemma {:induction false} ForeignersByKey(cs: seq<Node>)
    ensures ByKey(CanonicalAll(cs), FIELDS) == Foreigners(cs)
  {
    if cs != [] {
      var rest, n := cs[..|cs| - 1], cs[|cs| - 1];
      ForeignersByKey(rest);
      assert CanonicalAll(cs) == CanonicalAll(rest) + [Canonical(n)];
      ByKeyAppend(CanonicalAll(rest), Canonical(n), FIELDS);
    }
  }

  /** The patched document is in schema order with everything else behind; what the schema does not know
      keeps its subtrees and relative order, but for an Issue alias; and so do the fields the patch
      does not own. */
  lemma PatchPreserves(cs: seq<Node>, sets: seq<Assignment>, clears: seq<nat>, valid: seq<Node> -> bool)
    requires Patched(cs, sets, clears, valid).Some?
    ensures var r := Patched(cs, sets, clears, valid).value;
            && InOrder(r)
            && ByKey(r, FIELDS) in {Foreigners(cs), WithoutAliases(Foreigners(cs))}
            && (!Sets(sets, NUMBER) ==> ByKey(r, FIELDS) == Foreigners(cs))
            && forall k :: 0 <= k < FIELDS && !Owned(k) ==> ByKey(r, k) == ByKey(CanonicalAll(cs), k)
  {
    var d := PatchedFrom(cs, sets, clears, valid);
    ForeignersByKey(cs);
    forall k | 0 <= k <= FIELDS && !Owned(k)
      ensures ByKey(Patched(cs, sets, clears, valid).value, k) == ByKey(d, k)
    {
      EffectTwice(d, k, sets, clears);
    }
    forall k | 0 <= k < FIELDS ensures ByKey(d, k) == ByKey(CanonicalAll(cs), k) {
      WithoutAliasesParts(CanonicalAll(cs), k);
    }
    WithoutAliasesParts(CanonicalAll(cs), FIELDS);
  }

  // ---------------------------------------------------------------- the redundant alias

  /** The text between blanks: nothing but blanks around it, and no blank at its ends. */
  ghost predicate Core(s: string, t: string) {
    exists i, j :: 0 <= i <= j <= |s| && CoreAt(s, t, i, j)
  }

  ghost predicate CoreAt(s: string, t: string, i: nat, j: nat)
    requires i <= j <= |s|
  {
    && t == s[i..j] && (t != "" ==> !Blank(t[0]) && !Blank(t[|t| - 1]))
    && (forall k :: 0 <= k < i || j <= k < |s| ==> Blank(s[k]))
  }

  /** Blanks in front of the text, or behind it, do not matter. */
  lemma MoreBlanks(front: string, s: string, back: string, t: string)
    requires Core(s, t) && forall c :: c in front + back ==> Blank(c)
    ensures Core(front + s + back, t)
  {
    hide Blank;
    var i: nat, j: nat :| i <= j <= |s| && CoreAt(s, t, i, j);
    var all, n := front + s + back, |front|;
    assert all[i + n..j + n] == s[i..j];
    forall k | 0 <= k < i + n || j + n <= k < |all| ensures Blank(all[k]) {
      if n <= k < n + |s| { assert all[k] == s[k - n]; } else { assert all[k] in front + back; }
    }
    assert CoreAt(all, t, i + n, j + n);
  }

  lemma {:induction false} StripIsCore(s: string)
    ensures Core(s, Strip(s))
  {
    hide Blank, Core;
    if s != "" && Blank(s[0]) {
      StripIsCore(s[1..]);
      MoreBlanks([s[0]], s[1..], "", Strip(s));
      assert [s[0]] + s[1..] + "" == s;
    } else if s != "" && Blank(s[|s| - 1]) {
      StripIsCore(s[..|s| - 1]);
      MoreBlanks("", s[..|s| - 1], [s[|s| - 1]], Strip(s));
      assert "" + s[..|s| - 1] + [s[|s| - 1]] == s;
    } else {
      NoBlanks(s);
    }
  }

  lemma NoBlanks(s: string)
    requires s != "" ==> !Blank(s[0]) && !Blank(s[|s| - 1])
    ensures Core(s, s)
  {
    assert CoreAt(s, s, 0, |s|);
  }

  lemma OneCore(s: string, t: string, u: string)
    requires Core(s, t) && Core(s, u)
    ensures t == u
  {
    hide Blank;
    var i: nat, j: nat :| i <= j <= |s| && CoreAt(s, t, i, j);
    var k: nat, l: nat :| k <= l <= |s| && CoreAt(s, u, k, l);
    if t != "" { assert !Blank(s[i]) && !Blank(s[j - 1]); }
    if u != "" { assert !Blank(s[k]) && !Blank(s[l - 1]); }
  }

  predicate AllDigits(s: string) {
    forall i :: 0 <= i < |s| ==> '0' <= s[i] <= '9'
  }

  function SansZeros(s: string): string {
    if s != "" && s[0] == '0' then SansZeros(s[1..]) else s
  }

  lemma {:induction false} LeadingZero(s: string)
    requires s != "" && s[0] == '0' && AllDigits(s)
    ensures Number(s) == Number(s[1..])
  {
    if |s| > 1 {
      LeadingZero(s[..|s| - 1]);
      assert s[..|s| - 1][1..] == s[1..][..|s| - 2];
    } else {
      assert s[..0] == "" && s[1..] == "";
    }
  }

  lemma {:induction false} ZerosDoNotCount(s: string)
    requires AllDigits(s)
    ensures Number(s) == Number(SansZeros(s)) && AllDigits(SansZeros(s))
    ensures SansZeros(s) != "" ==> SansZeros(s)[0] != '0'
  {
    if s != "" && s[0] == '0' {
      LeadingZero(s);
      ZerosDoNotCount(s[1..]);
    }
  }

  lemma {:induction false} Positive(s: string)
    requires s != "" && s[0] != '0' && AllDigits(s)
    ensures Number(s) > 0
  {
    if |s| > 1 {
      Positive(s[..|s| - 1]);
    } else {
      assert s[..0] == "" && s[0] in s;
    }
  }

  lemma {:induction false} ShortestSpelling(a: string, b: string)
    requires AllDigits(a) && AllDigits(b) && (a != "" ==> a[0] != '0') && (b != "" ==> b[0] != '0')
    requires Number(a) == Number(b)
    ensures a == b
  {
    if a == "" || b == "" {
      if a != "" { Positive(a); }
      if b != "" { Positive(b); }
    } else {
      var x, y := a[|a| - 1], b[|b| - 1];
      assert x in a && y in b;
      ShortestSpelling(a[..|a| - 1], b[..|b| - 1]);
      assert a == a[..|a| - 1] + [x] && b == b[..|b| - 1] + [y];
    }
  }

  /** Digit strings have the same value exactly if they differ in leading zeros only. */
  lemma NumbersExactly(a: string, b: string)
    requires Digits(a) && Digits(b)
    ensures Number(a) == Number(b) <==> SansZeros(a) == SansZeros(b)
  {
    assert AllDigits(a) by { assert forall i :: 0 <= i < |a| ==> a[i] in a; }
    assert AllDigits(b) by { assert forall i :: 0 <= i < |b| ==> b[i] in b; }
    ZerosDoNotCount(a);
    ZerosDoNotCount(b);
    if Number(a) == Number(b) { ShortestSpelling(SansZeros(a), SansZeros(b)); }
  }

  /** The alias says nothing that the planned Number does not: it is blank, or the two agree but for blanks
      around them, or are digits that agree but for leading zeros. */
  ghost predicate Redundant(legacy: string, planned: string) {
    || (forall c :: c in legacy ==> Blank(c))
    || exists a, b :: Core(legacy, a) && Core(planned, b) &&
         (a == b || (Digits(a) && Digits(b) && SansZeros(a) == SansZeros(b)))
  }

  lemma RedundantExactly(legacy: string, planned: string)
    ensures Redundant(legacy, planned) <==>
              Strip(legacy) == "" || SameNumber(Strip(legacy), Strip(planned))
  {
    hide Strip, Number;
    StripIsCore(legacy);
    StripIsCore(planned);
    if Digits(Strip(legacy)) && Digits(Strip(planned)) { NumbersExactly(Strip(legacy), Strip(planned)); }
    BlankExactly(legacy);
    forall a, b | Core(legacy, a) && Core(planned, b) ensures a == Strip(legacy) && b == Strip(planned) {
      OneCore(legacy, a, Strip(legacy));
      OneCore(planned, b, Strip(planned));
    }
  }

  lemma BlankExactly(s: string)
    ensures Strip(s) == "" <==> forall c :: c in s ==> Blank(c)
  {
    StripIsCore(s);
    var i: nat, j: nat :| i <= j <= |s| && CoreAt(s, Strip(s), i, j);
    if Strip(s) != "" { assert s[i] in s; }
  }

  lemma {:induction false} AliasesOfCanonical(cs: seq<Node>)
    ensures Aliases(CanonicalAll(cs)) == Aliases(cs)
  {
    if cs != [] {
      var rest, n := cs[..|cs| - 1], cs[|cs| - 1];
      AliasesOfCanonical(rest);
      var c := CanonicalAll(rest);
      assert CanonicalAll(cs) == c + [Canonical(n)];
      assert (c + [Canonical(n)])[..|c|] == c;
    }
  }

  lemma {:induction false} AliasesAre(cs: seq<Node>)
    ensures forall n :: n in Aliases(cs) <==> n in cs && IsAlias(n)
  {
    if cs != [] {
      AliasesAre(cs[..|cs| - 1]);
      assert cs == cs[..|cs| - 1] + [cs[|cs| - 1]];
    }
  }

  /** The alias alone never stops a patch, unless it is doubled or not redundant. */
  lemma AliasHarmless(cs: seq<Node>, sets: seq<Assignment>)
    ensures AliasDropped(CanonicalAll(cs), sets).Some? <==>
              |Aliases(cs)| <= 1 &&
              (Sets(sets, NUMBER) ==> forall n :: n in cs && IsAlias(n) ==> Redundant(n.text, ValueOf(sets, NUMBER)))
  {
    hide Aliases, WithoutAliases, Redundant;
    AliasesOfCanonical(cs);
    AliasesAre(cs);
    forall n | n in cs && IsAlias(n) {
      RedundantExactly(n.text, ValueOf(sets, NUMBER));
    }
    if |Aliases(cs)| == 1 { assert Aliases(cs)[0] in Aliases(cs); }
  }

  lemma AliasesOfBase(cs: seq<Node>, sets: seq<Assignment>, d: seq<Node>)
    requires Base(cs, sets, d)
    ensures Aliases(d) == if Sets(sets, NUMBER) then [] else Aliases(cs)
  {
    AliasesOfCanonical(cs);
    AliasesGone(CanonicalAll(cs));
  }

  /** A patch goes through only if there is at most one alias and, when Number is planned, the alias is
      redundant; then it is gone, and otherwise it stays. */
  lemma AliasFate(cs: seq<Node>, sets: seq<Assignment>, clears: seq<nat>, valid: seq<Node> -> bool)
    requires Patched(cs, sets, clears, valid).Some?
    ensures |Aliases(cs)| <= 1
    ensures Aliases(Patched(cs, sets, clears, valid).value) == if Sets(sets, NUMBER) then [] else Aliases(cs)
    ensures Sets(sets, NUMBER) ==> forall n :: n in cs && IsAlias(n) ==> Redundant(n.text, ValueOf(sets, NUMBER))
  {
    hide Effect, InOrder, ByKey, Aliases, Patched, AllCanonical, Redundant, AliasDropped, CanonicalAll, Unambiguous,
      Ordered, SetAll, ClearedAll, OwnedOnly, Owned, Sets, ValueOf, IsAlias;
    var d := PatchedFrom(cs, sets, clears, valid);
    Resettled(d, Patched(cs, sets, clears, valid).value, sets, clears);
    AliasesOfBase(cs, sets, d);
    AliasHarmless(cs, sets);
  }

  // ---------------------------------------------------------------- page hashes

  function PageHashes(pages: seq<Node>): seq<(Option<string>, string)> {
    if pages == [] then []
    else
      var rest, page := PageHashes(pages[..|pages| - 1]), pages[|pages| - 1];
      if page.Element? && page.tag == Unknown("Page") && "ImageHash" in page.attributes
      then rest + [(if "Image" in page.attributes then Some(page.attributes["Image"]) else None,
        page.attributes["ImageHash"])]
      else rest
  }

  function Snapshot(cs: seq<Node>): seq<(Option<string>, string)> {
    if cs == [] then []
    else
      var rest, n := Snapshot(cs[..|cs| - 1]), cs[|cs| - 1];
      if n.Element? && n.tag == Field(PAGES) then rest + PageHashes(n.children) else rest
  }

  lemma {:induction false} SnapshotByKey(cs: seq<Node>)
    ensures Snapshot(cs) == Snapshot(ByKey(cs, PAGES))
  {
    if cs != [] {
      var rest, n := cs[..|cs| - 1], cs[|cs| - 1];
      SnapshotByKey(rest);
      var l := ByKey(rest, PAGES);
      assert (l + [n])[..|l|] == l;
    }
  }

  lemma {:induction false} SnapshotCanonical(cs: seq<Node>)
    requires forall n :: n in cs ==> !(n.Element? && n.tag.Miscased? && n.tag.index == PAGES)
    ensures Snapshot(CanonicalAll(cs)) == Snapshot(cs)
  {
    if cs != [] {
      var rest, n := cs[..|cs| - 1], cs[|cs| - 1];
      assert n in cs && forall x :: x in rest ==> x in cs;
      SnapshotCanonical(rest);
      var c := CanonicalAll(rest);
      assert CanonicalAll(cs) == c + [Canonical(n)];
      assert (c + [Canonical(n)])[..|c|] == c;
    }
  }

  /** The image hashes of the pages survive the patch, unless a child of the root was a miscased Pages:
      then they are those of the document with canonical spelling. */
  lemma PatchKeepsImageHashes(cs: seq<Node>, sets: seq<Assignment>, clears: seq<nat>, valid: seq<Node> -> bool)
    requires Patched(cs, sets, clears, valid).Some?
    ensures Snapshot(Patched(cs, sets, clears, valid).value) == Snapshot(CanonicalAll(cs))
    ensures (forall n :: n in cs ==> !(n.Element? && n.tag.Miscased? && n.tag.index == PAGES)) ==>
              Snapshot(Patched(cs, sets, clears, valid).value) == Snapshot(cs)
  {
    PatchPreserves(cs, sets, clears, valid);
    SnapshotByKey(Patched(cs, sets, clears, valid).value);
    SnapshotByKey(CanonicalAll(cs));
    if forall n :: n in cs ==> !(n.Element? && n.tag.Miscased? && n.tag.index == PAGES) { SnapshotCanonical(cs); }
  }

  // ---------------------------------------------------------------- the tree in place

  /** The root element; only its list of children changes. */
  class Root {
    var children: seq<Node>

    constructor (children: seq<Node>)
      ensures this.children == children
    {
      this.children := children;
    }

    method CanonicalizeLegacyKnownFieldCase()
      modifies this
      ensures children == CanonicalAll(old(children))
    {
      for i := 0 to |children|
        invariant |children| == |old(children)|
        invariant forall j :: 0 <= j < i ==> children[j] == Canonical(old(children)[j])
        invariant forall j :: i <= j < |children| ==> children[j] == old(children)[j]
      {
        var node := children[i];
        if node.Element? && node.tag.Miscased? {
          children := children[i := node.(tag := Field(node.tag.index))];
        }
      }
    }

    method NormalizeLegacyIssueAlias(sets: seq<Assignment>) returns (ok: bool)
      modifies this
      ensures ok <==> AliasDropped(old(children), sets).Some?
      ensures ok ==> children == AliasDropped(old(children), sets).value
    {
      var nodes := Aliases(children);
      if nodes == [] { return true; }
      if |nodes| > 1 { return false; }
      if !Sets(sets, NUMBER) { return true; }
      var legacy := if nodes[0].Element? then Strip(nodes[0].text) else "";
      if legacy != "" && !SameNumber(legacy, Strip(ValueOf(sets, NUMBER))) { return false; }
      RemoveAliases();
      return true;
    }

    method RemoveAliases()
      modifies this
      ensures children == WithoutAliases(old(children))
    {
      var before := children;
      children := [];
      for i := 0 to |before|
        invariant children == WithoutAliases(before[..i])
      {
        assert before[..i + 1][..i] == before[..i];
        if !IsAlias(before[i]) { children := children + [before[i]]; }
      }
      assert before[..|before|] == before;
    }

    /** Remove the elements of a field, one after the other. */
    method RemoveField(f: nat)
      modifies this
      ensures children == Without(old(children), f)
    {
      var i := 0;
      ghost var seen := 0;
      while i < |children|
        invariant 0 <= i <= |children| && 0 <= seen <= |old(children)|
        invariant children[..i] == Without(old(children)[..seen], f) && children[i..] == old(children)[seen..]
        decreases |children| - i
      {
        assert old(children)[..seen + 1][..seen] == old(children)[..seen];
        assert children[i] == children[i..][0] == old(children)[seen];
        assert children[i + 1..] == children[i..][1..] == old(children)[seen + 1..];
        if Key(children[i]) == f {
          ghost var front := children[..i];
          children := children[..i] + children[i + 1..];
          assert children[..i] == front;
        } else {
          assert children[..i + 1] == children[..i] + [children[i]];
          i := i + 1;
        }
        seen := seen + 1;
      }
      assert seen == |old(children)| && old(children)[..seen] == old(children) && children[..i] == children;
    }

    /** Set the text of a field's first element, or append an element. */
    method SetField(a: Assignment)
      modifies this
      ensures children == WithText(old(children), a)
    {
      var i := 0;
      while i < |children| && Key(children[i]) != a.index
        invariant 0 <= i <= |children| && ByKey(children[..i], a.index) == []
      {
        assert children[..i + 1][..i] == children[..i];
        i := i + 1;
      }
      if i < |children| {
        WithTextAt(children, a, i);
        children := children[i := Retexted(children[i], a.value)];
      } else {
        assert children[..i] == children;
        children := children + [Fresh(a)];
      }
    }

    /** A stable insertion sort by schema position. */
    method OrderKnownElements()
      modifies this
      ensures children == Ordered(old(children))
    {
      var before := children;
      var ordered: seq<Node> := [];
      for i := 0 to |before|
        invariant ordered == Ordered(before[..i])
      {
        assert before[..i + 1][..i] == before[..i];
        ordered := InsertByKey(ordered, before[i]);
      }
      assert before[..|before|] == before;
      children := ordered;
    }

    static method InsertByKey(ordered: seq<Node>, n: Node) returns (r: seq<Node>)
      ensures r == Inserted(ordered, n)
    {
      hide Inserted;
      var j := |ordered|;
      assert ordered[..j] == ordered && Inserted(ordered, n) == Inserted(ordered[..j], n) + ordered[j..];
      while j > 0 && Key(ordered[j - 1]) > Key(n)
        invariant 0 <= j <= |ordered| && Inserted(ordered, n) == Inserted(ordered[..j], n) + ordered[j..]
      {
        InsertedSteps(ordered, n, j);
        ghost var front, x, back := Inserted(ordered[..j - 1], n), ordered[j - 1], ordered[j..];
        assert ordered[j - 1..] == [x] + back && (front + [x]) + back == front + ([x] + back);
        j := j - 1;
      }
      InsertedSteps(ordered, n, j);
      r := ordered[..j] + [n] + ordered[j..];
    }

    /** `read_comicinfo`: the owned fields with text; None when one of them is ambiguous. */
    method Read() returns (metadata: Option<map<FieldNo, string>>)
      ensures metadata.Some? <==> Unambiguous(children)
      ensures metadata.Some? ==> forall f: FieldNo ::
                (f in metadata.value <==> Owned(f) && FieldText(children, f).Some?) &&
                (f in metadata.value ==> FieldText(children, f) == Some(metadata.value[f]))
    {
      var found: map<FieldNo, string> := map[];
      for i := 0 to FIELDS
        invariant forall f :: 0 <= f < i && Owned(f) ==> |ByKey(children, f)| <= 1
        invariant forall f: FieldNo :: (f in found <==> f < i && Owned(f) && FieldText(children, f).Some?)
        invariant forall f: FieldNo :: f in found ==> FieldText(children, f) == Some(found[f])
      {
        if Owned(i) {
          var nodes := ByKey(children, i);
          if |nodes| > 1 { return None; }
          if nodes != [] && nodes[0].Element? && nodes[0].text != "" {
            found := found[i := Strip(nodes[0].text)];
          }
        }
      }
      return Some(found);
    }

    /** `patch_comicinfo` on the parsed tree. */
    method Patch(sets: seq<Assignment>, clears: seq<nat>, valid: seq<Node> -> bool) returns (ok: bool)
      modifies this
      ensures ok <==> Patched(old(children), sets, clears, valid).Some?
      ensures ok ==> children == Patched(old(children), sets, clears, valid).value
    {
      if !OwnedOnly(sets, clears) { return false; }
      CanonicalizeLegacyKnownFieldCase();
      ok := NormalizeLegacyIssueAlias(sets);
      if !ok || !Unambiguous(children) { return false; }
      ghost var d := children;
      for i := 0 to |clears|
        invariant children == ClearedAll(d, clears[..i])
      {
        assert clears[..i + 1][..i] == clears[..i];
        RemoveField(clears[i]);
      }
      assert clears[..|clears|] == clears;
      for i := 0 to |sets|
        invariant children == SetAll(ClearedAll(d, clears), sets[..i])
      {
        assert sets[..i + 1][..i] == sets[..i];
        SetField(sets[i]);
      }
      assert sets[..|sets|] == sets;
      OrderKnownElements();
      ok := valid(children);
    }
  }

  lemma InsertedSteps(cs: seq<Node>, n: Node, j: nat)
    requires j <= |cs|
    ensures if j > 0 && Key(cs[j - 1]) > Key(n) then Inserted(cs[..j], n) == Inserted(cs[..j - 1], n) + [cs[j - 1]]
            else Inserted(cs[..j], n) == cs[..j] + [n]
  {
    if j > 0 { assert cs[..j][..j - 1] == cs[..j - 1]; }
  }

  lemma {:induction false} WithTextAt(cs: seq<Node>, a: Assignment, i: nat)
    requires i < |cs| && Key(cs[i]) == a.index && ByKey(cs[..i], a.index) == []
    ensures WithText(cs, a) == cs[i := Retexted(cs[i], a.value)]
  {
    ByKeyKeys(cs, a.index);
    assert cs[i] in cs;
    var rest := cs[..|cs| - 1];
    if i == |cs| - 1 {
      assert rest == cs[..i];
    } else {
      ByKeyKeys(rest, a.index);
      assert rest[i] in rest && rest[..i] == cs[..i];
      WithTextAt(rest, a, i);
    }
  }
}
