/**
 * `RawPdfPath`: a path from an object to one of its descendants, a sequence
 * of array indices and dictionary keys, as the difference analysis reports
 * it. Two paths are equal when their nodes carry the same kind and value, so
 * index 1 and key `1` differ; printed, an index reads `[n]` and a key
 * `.Name` without its leading slash.
 */
module RawPdfPaths {
  /** One step of a path: an array index or a dictionary key. */
  datatype PathNode = IndexNode(index: int) | KeyNode(key: string)

  datatype RawPdfPath = RawPdfPath(path: seq<PathNode>)

  /** The right operand of `+`: another path, or a single node. */
  datatype Addend = PathAddend(other: RawPdfPath) | NodeAddend(node: PathNode)

  /** `__len__`. */
  function Len(p: RawPdfPath): nat {
    |p.path|
  }

  /** `__add__`: the nodes of the other path, or the one node, after this path's. */
  function Add(p: RawPdfPath, other: Addend): (r: RawPdfPath)
    ensures Len(r) == Len(p) + (if other.PathAddend? then Len(other.other) else 1)
    ensures r.path[..|p.path|] == p.path
    ensures other.PathAddend? ==> r.path[|p.path|..] == other.other.path
    ensures other.NodeAddend? ==> r.path[|p.path|..] == [other.node]
  {
    match other
    case PathAddend(q) => RawPdfPath(p.path + q.path)
    case NodeAddend(n) => RawPdfPath(p.path + [n])
  }

  /** The tag of a node: whether it is an index, and its value of either kind. */
  datatype NodeTag = NodeTag(isIndex: bool, index: int, key: string)

  function TagOf(n: PathNode): NodeTag {
    match n
    case IndexNode(i) => NodeTag(true, i, "")
    case KeyNode(k) => NodeTag(false, 0, k)
  }

  /** `_tag`: the tags of the nodes in order. */
  function Tag(p: RawPdfPath): (t: seq<NodeTag>)
    ensures |t| == |p.path| && forall i | 0 <= i < |t| :: t[i] == TagOf(p.path[i])
  {
    seq(|p.path|, i requires 0 <= i < |p.path| => TagOf(p.path[i]))
  }

  /** `__eq__`: paths compare by their tags. */
  predicate Equal(p: RawPdfPath, q: RawPdfPath) {
    Tag(p) == Tag(q)
  }

  /** The decimal digits of a natural number, most significant first, as `%d` writes them. */
  function NatDigits(n: nat): (s: string)
    ensures s != [] && forall i | 0 <= i < |s| :: '0' <= s[i] <= '9'
    decreases n
  {
    if n < 10 then [DigitChar(n)] else NatDigits(n / 10) + [DigitChar(n % 10)]
  }

  function DigitChar(d: nat): (c: char)
    requires d < 10
    ensures '0' <= c <= '9'
  {
    match d
    case 0 => '0' case 1 => '1' case 2 => '2' case 3 => '3' case 4 => '4'
    case 5 => '5' case 6 => '6' case 7 => '7' case 8 => '8' case _ => '9'
  }

  /** `'%d' % n`: a minus sign before the digits of a negative number. */
  function Decimal(n: int): (s: string)
    ensures s != []
  {
    if n < 0 then "-" + NatDigits(-n) else NatDigits(n)
  }

  /** `_fmt_node`: `[n]` for an index; for a key, a dot and the key without its first character. */
  function FormatNode(n: PathNode): string {
    match n
    case IndexNode(i) => "[" + Decimal(i) + "]"
    case KeyNode(k) => "." + (if k == [] then [] else k[1..])
  }

  /** `__str__`: the formatted nodes one after the other. */
  function Str(p: RawPdfPath): string {
    FormatNodes(p.path)
  }

  function FormatNodes(nodes: seq<PathNode>): string {
    if nodes == [] then "" else FormatNode(nodes[0]) + FormatNodes(nodes[1..])
  }

  /** The value of a string of decimal digits. */
  function DigitsValue(s: string): nat
    requires forall i | 0 <= i < |s| :: '0' <= s[i] <= '9'
  {
    if s == [] then 0 else 10 * DigitsValue(s[..|s| - 1]) + (s[|s| - 1] as int - '0' as int)
  }

  /** The value of what `Decimal` writes, with its sign. */
  function DecimalValue(s: string): int
    requires s != []
    requires forall i | 1 <= i < |s| :: '0' <= s[i] <= '9'
    requires s[0] == '-' || '0' <= s[0] <= '9'
  {
    if s[0] == '-' then 0 - DigitsValue(s[1..]) else DigitsValue(s)
  }

  /** The digits read back give the number written. */
  lemma {:induction false} NatDigitsRoundTrip(n: nat)
    ensures DigitsValue(NatDigits(n)) == n
    decreases n
  {
    var s := NatDigits(n);
    if n < 10 {
      assert s == [DigitChar(n)];
      assert s[..0] == [];
    } else {
      NatDigitsRoundTrip(n / 10);
      assert s[..|s| - 1] == NatDigits(n / 10);
      assert s[|s| - 1] == DigitChar(n % 10);
    }
  }

  /** `%d` of any integer reads back as that integer. */
  lemma DecimalRoundTrip(n: int)
    ensures var s := Decimal(n);
      (forall i | 1 <= i < |s| :: '0' <= s[i] <= '9') && (s[0] == '-' || '0' <= s[0] <= '9') &&
      DecimalValue(s) == n
  {
    if n < 0 {
      NatDigitsRoundTrip(-n);
      assert Decimal(n)[1..] == NatDigits(-n);
    } else {
      NatDigitsRoundTrip(n);
    }
  }

  /** Two paths are equal exactly when they hold the same nodes: an index never equals a key, whatever their values. */
  lemma EqualIffSameNodes(p: RawPdfPath, q: RawPdfPath)
    ensures Equal(p, q) <==> p == q
  {
    if Equal(p, q) {
      assert |p.path| == |q.path|;
      forall i | 0 <= i < |p.path|
        ensures p.path[i] == q.path[i]
      {
        assert TagOf(p.path[i]) == Tag(p)[i] == Tag(q)[i] == TagOf(q.path[i]);
      }
    }
  }

  /** Index 1 and key `1` are different paths. */
  lemma IndexIsNotKey()
    ensures !Equal(RawPdfPath([IndexNode(1)]), RawPdfPath([KeyNode("1")]))
  {
    assert Tag(RawPdfPath([IndexNode(1)]))[0].isIndex;
  }

  /** Printing a sum prints the two paths one after the other. */
  lemma {:induction false} FormatNodesAppend(a: seq<PathNode>, b: seq<PathNode>)
    ensures FormatNodes(a + b) == FormatNodes(a) + FormatNodes(b)
  {
    if a == [] {
      assert a + b == b;
    } else {
      assert (a + b)[1..] == a[1..] + b;
      FormatNodesAppend(a[1..], b);
    }
  }

  lemma StrAdd(p: RawPdfPath, other: Addend)
    ensures other.PathAddend? ==> Str(Add(p, other)) == Str(p) + Str(other.other)
    ensures other.NodeAddend? ==> Str(Add(p, other)) == Str(p) + FormatNode(other.node)
  {
    match other
    case PathAddend(q) => FormatNodesAppend(p.path, q.path);
    case NodeAddend(n) =>
      FormatNodesAppend(p.path, [n]);
      assert FormatNodes([n]) == FormatNode(n) + FormatNodes([]);
  }

  /** Each index prints as `[`, its digits and `]`; each key as a dot and its name after the slash. */
  lemma FormatNodeShape(n: PathNode)
    ensures n.IndexNode? ==> var s := FormatNode(n);
      s[0] == '[' && s[|s| - 1] == ']' && DecimalValue(s[1..|s| - 1]) == n.index
    ensures n.KeyNode? && n.key != [] ==> FormatNode(n) == "." + n.key[1..]
  {
    if n.IndexNode? {
      DecimalRoundTrip(n.index);
      assert FormatNode(n)[1..|FormatNode(n)| - 1] == Decimal(n.index);
    }
  }
}
