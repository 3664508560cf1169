/**
 * The name-keyed attribute map of program/structure.c: attribute records
 * (`attr_t`) with a name, a type flag and a value, kept in a red-black tree
 * ordered by `strcmp` on the name, and the `main` driver that inserts six
 * attributes that all share one name.
 *
 * The tree is represented by its in-order walk, a sequence of attribute
 * references whose names strictly increase.
 */
module Structure {
  import opened Common

  // ---------------------------------------------------------------------
  // Type flags and masks (the `size_t type` field of an attribute)
  // ---------------------------------------------------------------------

  const ATTR_RO: bv64 := 0x001
  const ATTR_NODELETE: bv64 := 0x002
  const ATTR_JID_MASK: bv64 := ATTR_RO | ATTR_NODELETE

  const ATTR_BOOL: bv64 := 0x010
  const ATTR_NUMBER: bv64 := 0x020
  const ATTR_STRING: bv64 := 0x040
  const ATTR_NULL: bv64 := 0x080
  const ATTR_ARRAY: bv64 := 0x100
  const ATTR_NESTED: bv64 := 0x200
  const ATTR_SIMPLE_MASK: bv64 := ATTR_BOOL | ATTR_NUMBER | ATTR_STRING | ATTR_NULL

  /** The six type flags, the simple ones first. */
  const TypeFlags: seq<bv64> := [ATTR_BOOL, ATTR_NUMBER, ATTR_STRING, ATTR_NULL, ATTR_ARRAY, ATTR_NESTED]

  /** Exactly one bit of `x` is set. */
  predicate SingleBit(x: bv64)
  {
    x != 0 && x & (x - 1) == 0
  }

  /** The type flags are single bits, no two share a bit, and none overlaps the
      read-only/no-delete bits. */
  lemma TypeFlagsAreDistinctBits()
    ensures forall i | 0 <= i < |TypeFlags| :: SingleBit(TypeFlags[i])
    ensures forall i, j | 0 <= i < j < |TypeFlags| :: TypeFlags[i] & TypeFlags[j] == 0
    ensures SingleBit(ATTR_RO) && SingleBit(ATTR_NODELETE) && ATTR_RO & ATTR_NODELETE == 0
    ensures forall i | 0 <= i < |TypeFlags| :: TypeFlags[i] & ATTR_JID_MASK == 0
  {
  }

  /** The simple mask selects BOOL, NUMBER, STRING and NULL and nothing else:
      no other bit, and in particular neither ARRAY nor NESTED. The JID mask is
      exactly the read-only and no-delete bits. */
  lemma MaskContents()
    ensures forall i | 0 <= i < |TypeFlags| :: (TypeFlags[i] & ATTR_SIMPLE_MASK != 0) <==> i < 4
    ensures forall i | 0 <= i < 4 :: TypeFlags[i] & ATTR_SIMPLE_MASK == TypeFlags[i]
    ensures ATTR_SIMPLE_MASK & !(ATTR_BOOL | ATTR_NUMBER | ATTR_STRING | ATTR_NULL) == 0
    ensures ATTR_JID_MASK & ATTR_SIMPLE_MASK == 0 && ATTR_JID_MASK & (ATTR_ARRAY | ATTR_NESTED) == 0
    ensures ATTR_JID_MASK & ATTR_RO == ATTR_RO && ATTR_JID_MASK & ATTR_NODELETE == ATTR_NODELETE
    ensures ATTR_JID_MASK & !(ATTR_RO | ATTR_NODELETE) == 0
  {
  }

  // ---------------------------------------------------------------------
  // Names and their order
  // ---------------------------------------------------------------------

  /** A C string's bytes, without its terminating NUL. */
  type CName = s: seq<byte> | forall i | 0 <= i < |s| :: s[i] != 0

  /** "cvrc", the name `main` gives every attribute. */
  const CVRC: CName := [0x63, 0x76, 0x72, 0x63]

  /** Byte-wise lexicographic order: at the first position where the names
      differ, `a`'s byte is smaller, or `a` is a proper prefix of `b`. */
  ghost predicate NameLess(a: seq<byte>, b: seq<byte>)
  {
    exists k :: 0 <= k <= |a| && k <= |b| && a[..k] == b[..k] &&
      ((k == |a| && k < |b|) || (k < |a| && k < |b| && a[k] < b[k]))
  }

  /** Nothing is below the empty name, and the empty name is below every other. */
  lemma NameLessNil(a: seq<byte>, b: seq<byte>)
    ensures |b| == 0 ==> !NameLess(a, b)
    ensures |a| == 0 ==> (NameLess(a, b) <==> |b| > 0)
  {
    if |a| == 0 && |b| > 0 {
      assert a[..0] == b[..0];
    }
  }

  /** Lexicographic order on non-empty names, one byte at a time. */
  lemma NameLessStep(a: seq<byte>, b: seq<byte>)
    requires |a| > 0 && |b| > 0
    ensures NameLess(a, b) <==> a[0] < b[0] || (a[0] == b[0] && NameLess(a[1..], b[1..]))
  {
    if NameLess(a, b) {
      var k :| 0 <= k <= |a| && k <= |b| && a[..k] == b[..k] &&
        ((k == |a| && k < |b|) || (k < |a| && k < |b| && a[k] < b[k]));
      if k > 0 {
        assert a[0] == a[..k][0] == b[..k][0] == b[0];
        assert a[1..][..k - 1] == a[..k][1..] by {
          forall j | 0 <= j < k - 1 ensures a[1..][..k - 1][j] == a[..k][1..][j] {}
        }
        assert b[1..][..k - 1] == b[..k][1..] by {
          forall j | 0 <= j < k - 1 ensures b[1..][..k - 1][j] == b[..k][1..][j] {}
        }
        if k < |a| && k < |b| {
          assert a[1..][k - 1] == a[k] && b[1..][k - 1] == b[k];
        }
        assert NameLess(a[1..], b[1..]);
      }
    }
    if a[0] < b[0] {
      assert a[..0] == b[..0];
    } else if a[0] == b[0] && NameLess(a[1..], b[1..]) {
      var k :| 0 <= k <= |a[1..]| && k <= |b[1..]| && a[1..][..k] == b[1..][..k] &&
        ((k == |a[1..]| && k < |b[1..]|) || (k < |a[1..]| && k < |b[1..]| && a[1..][k] < b[1..][k]));
      assert a[..k + 1] == [a[0]] + a[1..][..k];
      assert b[..k + 1] == [b[0]] + b[1..][..k];
      assert NameLess(a, b) by {
        assert a[..k + 1] == b[..k + 1];
      }
    }
  }

  /** `strcmp`: the difference of the first pair of unsigned bytes that differ,
      reading the terminator as byte 0, or 0 when the strings are equal. Its
      sign follows the lexicographic order of the names. */
  function Strcmp(a: CName, b: CName): (r: int)
    ensures r == 0 <==> a == b
    ensures r < 0 <==> NameLess(a, b)
    ensures r > 0 <==> NameLess(b, a)
    decreases |a|
  {
    NameLessNil(a, b);
    NameLessNil(b, a);
    var ca := if |a| == 0 then 0 else a[0] as int;
    var cb := if |b| == 0 then 0 else b[0] as int;
    if ca != cb then
      if |a| > 0 && |b| > 0 then
        NameLessStep(a, b);
        NameLessStep(b, a);
        ca - cb
      else
        ca - cb
    else if |a| == 0 then
      0
    else
      NameLessStep(a, b);
      NameLessStep(b, a);
      assert a == [a[0]] + a[1..] && b == [b[0]] + b[1..];
      Strcmp(a[1..], b[1..])
  }

  /** The lexicographic order is transitive. */
  lemma {:induction false} NameLessTransitive(a: seq<byte>, b: seq<byte>, c: seq<byte>)
    requires NameLess(a, b) && NameLess(b, c)
    ensures NameLess(a, c)
    decreases |a|
  {
    NameLessNil(a, b);
    NameLessNil(b, c);
    NameLessNil(a, c);
    if |a| > 0 {
      NameLessStep(a, b);
      NameLessStep(b, c);
      NameLessStep(a, c);
      if a[0] == b[0] && b[0] == c[0] {
        NameLessTransitive(a[1..], b[1..], c[1..]);
      }
    }
  }

  /** On names, the order `strcmp` induces is a strict total order. */
  lemma NameOrderIsStrictTotal(a: CName, b: CName, c: CName)
    ensures !NameLess(a, a)
    ensures NameLess(a, b) ==> !NameLess(b, a)
    ensures a != b ==> NameLess(a, b) || NameLess(b, a)
    ensures NameLess(a, b) && NameLess(b, c) ==> NameLess(a, c)
  {
    var _ := Strcmp(a, a);
    var _ := Strcmp(a, b);
    if NameLess(a, b) && NameLess(b, c) {
      NameLessTransitive(a, b, c);
    }
  }

  // ---------------------------------------------------------------------
  // Attributes
  // ---------------------------------------------------------------------

  /** The `value` union of an attribute; `Uninit` is the content `malloc`
      leaves before anything is stored. */
  datatype AttrValue = Uninit | BoolValue(b: bool) | NumberValue(n: u64)

  /** An `attr_t` record. The name is set once, by `new_number`, and never
      changed afterwards, so it is a constant here. */
  class Attr {
    const name: CName
    /** The `type` field: one of the ATTR_* flags. */
    var kind: bv64
    var value: AttrValue

    /** `new_number`: a fresh node with the given name and the NUMBER type;
        its value is left unset. */
    constructor NewNumber(name: CName)
      ensures this.name == name && kind == ATTR_NUMBER && value == Uninit
    {
      this.name := name;
      kind := ATTR_NUMBER;
      value := Uninit;
    }
  }

  /** `attr_name_compare`: `strcmp` on the two attributes' names. */
  function AttrNameCompare(a1: Attr, a2: Attr): (r: int)
    ensures r == 0 <==> a1.name == a2.name
    ensures r < 0 <==> NameLess(a1.name, a2.name)
    ensures r > 0 <==> NameLess(a2.name, a1.name)
  {
    Strcmp(a1.name, a2.name)
  }

  /** Every attribute's name is below every later attribute's name. */
  ghost predicate StrictlySorted(s: seq<Attr>)
  {
    forall i, j | 0 <= i < j < |s| :: NameLess(s[i].name, s[j].name)
  }

  /** In a strictly increasing walk no two attributes share a name, and the
      comparator orders every earlier attribute before every later one. */
  lemma SortedWalkHasUniqueNames(s: seq<Attr>)
    requires StrictlySorted(s)
    ensures forall i, j | 0 <= i < j < |s| :: s[i].name != s[j].name
    ensures forall i, j | 0 <= i < j < |s| :: AttrNameCompare(s[i], s[j]) < 0
  {
    forall i, j | 0 <= i < j < |s| ensures s[i].name != s[j].name {
      NameOrderIsStrictTotal(s[i].name, s[j].name, s[j].name);
    }
  }

  /** The names of the attributes in a walk. */
  ghost function NameSet(s: seq<Attr>): set<CName>
  {
    set i | 0 <= i < |s| :: s[i].name
  }

  /** Placing an attribute between the ones below it and the ones above it
      keeps the walk strictly increasing. */
  lemma SpliceKeepsSorted(s: seq<Attr>, i: nat, x: Attr)
    requires StrictlySorted(s) && i <= |s|
    requires forall j | 0 <= j < i :: NameLess(s[j].name, x.name)
    requires forall j | i <= j < |s| :: NameLess(x.name, s[j].name)
    ensures StrictlySorted(s[..i] + [x] + s[i..])
  {
    var t := s[..i] + [x] + s[i..];
    forall j, k | 0 <= j < k < |t| ensures NameLess(t[j].name, t[k].name) {
      if k < i {
        assert t[j] == s[j] && t[k] == s[k];
      } else if k == i {
        assert t[j] == s[j] && t[k] == x;
      } else if j == i {
        assert t[j] == x && t[k] == s[k - 1];
      } else if j < i {
        assert t[j] == s[j] && t[k] == s[k - 1];
      } else {
        assert t[j] == s[j - 1] && t[k] == s[k - 1];
      }
    }
  }

  /** Splicing an attribute into a walk adds exactly its name to the walk's
      names. */
  lemma SpliceNames(s: seq<Attr>, i: nat, x: Attr)
    requires i <= |s|
    ensures NameSet(s[..i] + [x] + s[i..]) == NameSet(s) + {x.name}
  {
    var t := s[..i] + [x] + s[i..];
    forall y | y in NameSet(t) ensures y in NameSet(s) + {x.name} {
      var j :| 0 <= j < |t| && t[j].name == y;
      if j < i { assert t[j] == s[j]; }
      else if j > i { assert t[j] == s[j - 1]; }
    }
    forall y | y in NameSet(s) ensures y in NameSet(t) {
      var j :| 0 <= j < |s| && s[j].name == y;
      if j < i { assert t[j] == s[j]; }
      else { assert t[j + 1] == s[j]; }
    }
    assert t[i] == x;
  }

  // ---------------------------------------------------------------------
  // The tree
  // ---------------------------------------------------------------------

  /** A `params_t` red-black tree, seen through its in-order walk. */
  class Params {
    /** The attributes in tree order. */
    var nodes: seq<Attr>

    ghost predicate Valid()
      reads this
    {
      StrictlySorted(nodes)
    }

    /** The names stored in the tree. */
    ghost function Names(): set<CName>
      reads this
    {
      NameSet(nodes)
    }

    /** `RB_INIT`: the empty tree. */
    constructor ()
      ensures Valid() && nodes == []
    {
      nodes := [];
    }

    /** The descent of `RB_INSERT`: comparing the new name against stored ones
        with `strcmp`, either find the attribute that has the name, or find the
        position where it belongs. */
    method Locate(name: CName) returns (i: nat, found: bool)
      requires Valid()
      ensures i <= |nodes|
      ensures found <==> i < |nodes| && nodes[i].name == name
      ensures forall j | 0 <= j < i :: NameLess(nodes[j].name, name)
      ensures !found ==> forall j | i <= j < |nodes| :: NameLess(name, nodes[j].name)
    {
      var lo, hi := 0, |nodes|;
      while lo < hi
        invariant 0 <= lo <= hi <= |nodes|
        invariant forall j | 0 <= j < lo :: NameLess(nodes[j].name, name)
        invariant forall j | hi <= j < |nodes| :: NameLess(name, nodes[j].name)
        decreases hi - lo
      {
        var mid := (lo + hi) / 2;
        var cmp := Strcmp(name, nodes[mid].name);
        if cmp < 0 {
          forall j | mid <= j < hi ensures NameLess(name, nodes[j].name) {
            if j > mid {
              NameLessTransitive(name, nodes[mid].name, nodes[j].name);
            }
          }
          hi := mid;
        } else if cmp > 0 {
          forall j | lo <= j <= mid ensures NameLess(nodes[j].name, name) {
            if j < mid {
              NameLessTransitive(nodes[j].name, nodes[mid].name, name);
            }
          }
          lo := mid + 1;
        } else {
          return mid, true;
        }
      }
      if lo < |nodes| {
        NameOrderIsStrictTotal(name, name, name);
      }
      return lo, false;
    }

    /** `RB_INSERT`: when an attribute with the same name is stored, return it
        and leave the tree as it was; otherwise link the new node in its place
        by name and return null. Stored attributes are never touched. */
    method Insert(node: Attr) returns (existing: Attr?)
      requires Valid()
      modifies this
      ensures Valid()
      ensures existing != null <==> node.name in old(Names())
      ensures existing != null ==>
        nodes == old(nodes) && existing in nodes && existing.name == node.name
      ensures existing == null ==>
        exists p | 0 <= p <= |old(nodes)| :: nodes == old(nodes)[..p] + [node] + old(nodes)[p..]
      ensures Names() == old(Names()) + {node.name}
    {
      var i, found := Locate(node.name);
      if found {
        existing := nodes[i];
      } else {
        SpliceKeepsSorted(nodes, i, node);
        SpliceNames(nodes, i, node);
        nodes := nodes[..i] + [node] + nodes[i..];
        existing := null;
      }
    }
  }

  /** The `main` driver: six nodes, all named "cvrc", with values 0 to 5, are
      inserted into an empty tree. Only the first is accepted, so the tree ends
      with that single attribute and its value 0. */
  method RunMain() returns (params: Params)
    ensures params.Valid()
    ensures |params.nodes| == 1
    ensures params.nodes[0].name == CVRC && params.nodes[0].kind == ATTR_NUMBER
    ensures params.nodes[0].value == NumberValue(0)
  {
    params := new Params();
    var n: u64 := 0;
    while n < 6
      invariant n <= 6
      invariant fresh(params)
      invariant params.Valid()
      invariant n == 0 ==> params.nodes == []
      invariant n > 0 ==> |params.nodes| == 1 && params.nodes[0].name == CVRC
      invariant n > 0 ==> params.nodes[0].kind == ATTR_NUMBER && params.nodes[0].value == NumberValue(0)
    {
      var node := new Attr.NewNumber(CVRC);
      node.value := NumberValue(n);
      var existing := params.Insert(node);
      n := n + 1;
    }
  }
}
