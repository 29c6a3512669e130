/**
 The parsed YAML tree the validator walks, and the two accessors every
 validator uses: the line of a possibly absent node, and the lookup of a
 key in a mapping node (getMap in main.go).
 */
module Yaml {
  import opened Wrappers

  /** The node kinds of the YAML parser. */
  datatype Kind = DocumentKind | SequenceKind | MappingKind | ScalarKind | AliasKind

  /**
   One parsed node. As in the parser, a mapping's `content` alternates key
   and value nodes; `tag` is the resolved type tag of a scalar ("!!int",
   "!!str", ...); `line` is the 1-based source line.
   */
  datatype Node = Node(kind: Kind, tag: string, value: string, content: seq<Node>, line: int)

  /** The line to report for a possibly absent node: 0 when there is no node or no positive line. */
  function NodeLine(n: Option<Node>): (l: int)
    ensures l >= 0
    ensures l > 0 <==> n.Some? && n.value.line > 0
    ensures l > 0 ==> l == n.value.line
  {
    if n.Some? && n.value.line > 0 then n.value.line else 0
  }

  /**
   Position `i` of `m`'s content is a key position (even), a value follows
   it, and the key node's text is `key`.
   */
  predicate KeyAt(m: Node, i: int, key: string)
  {
    0 <= i && i % 2 == 0 && i + 1 < |m.content| && m.content[i].value == key
  }

  /** `i` is the first key position of `m` whose text is `key`. */
  predicate FirstKeyAt(m: Node, i: int, key: string)
  {
    KeyAt(m, i, key) && forall k :: 0 <= k < i ==> !KeyAt(m, k, key)
  }

  /** The value after the first key at or after the even position `i` whose text is `key`. */
  function LookupFrom(m: Node, key: string, i: nat): Option<Node>
    decreases |m.content| - i
  {
    if i + 1 < |m.content| then
      if m.content[i].value == key then Some(m.content[i + 1]) else LookupFrom(m, key, i + 2)
    else
      None
  }

  /**
   The value paired with the first key of mapping `m` whose text is `key`;
   nothing for a node that is not a mapping.
   */
  function Lookup(m: Node, key: string): Option<Node>
  {
    if m.kind != MappingKind then None else LookupFrom(m, key, 0)
  }

  lemma {:induction false} LookupFromFirstMatch(m: Node, key: string, i: nat)
    requires i % 2 == 0
    ensures LookupFrom(m, key, i).Some? <==> exists j :: i <= j && KeyAt(m, j, key)
    ensures LookupFrom(m, key, i).Some? ==>
              exists j :: i <= j && KeyAt(m, j, key) && LookupFrom(m, key, i).value == m.content[j + 1]
                          && forall k :: i <= k < j ==> !KeyAt(m, k, key)
    decreases |m.content| - i
  {
    if i + 1 < |m.content| {
      if m.content[i].value == key {
        assert KeyAt(m, i, key);
      } else {
        assert !KeyAt(m, i, key) && !KeyAt(m, i + 1, key);
        LookupFromFirstMatch(m, key, i + 2);
      }
    }
  }

  /**
   getMap's result: a value exactly when `m` is a mapping with a key of that
   text at a key position that has a value after it (so a dangling last
   element of odd-length content is never a key), and then the value paired
   with the first such key.
   */
  lemma LookupFirstMatch(m: Node, key: string)
    ensures Lookup(m, key).Some? <==> m.kind == MappingKind && exists i :: KeyAt(m, i, key)
    ensures Lookup(m, key).Some? ==>
              exists i :: FirstKeyAt(m, i, key) && Lookup(m, key).value == m.content[i + 1]
  {
    if m.kind == MappingKind {
      LookupFromFirstMatch(m, key, 0);
      if Lookup(m, key).Some? {
        var j :| 0 <= j && KeyAt(m, j, key) && Lookup(m, key).value == m.content[j + 1]
                 && forall k :: 0 <= k < j ==> !KeyAt(m, k, key);
        assert FirstKeyAt(m, j, key);
      }
    }
  }

  lemma {:induction false} LookupFromIgnoresDangling(m: Node, key: string, i: nat)
    requires |m.content| % 2 == 1 && i % 2 == 0
    ensures LookupFrom(m, key, i) == LookupFrom(m.(content := m.content[..|m.content| - 1]), key, i)
    decreases |m.content| - i
  {
    if i + 1 < |m.content| {
      LookupFromIgnoresDangling(m, key, i + 2);
    }
  }

  /**
   The last element of odd-length mapping content has no value after it and
   is ignored: the lookup is the same as in the content without it.
   */
  lemma LookupIgnoresDangling(m: Node, key: string)
    requires |m.content| % 2 == 1
    ensures Lookup(m, key) == Lookup(m.(content := m.content[..|m.content| - 1]), key)
  {
    LookupFromIgnoresDangling(m, key, 0);
  }

  /** getMap: the index loop over key positions of a possibly nil node. */
  method GetMap(m: Option<Node>, key: string) returns (v: Option<Node>)
    ensures m.None? ==> v.None?
    ensures m.Some? ==> v == Lookup(m.value, key)
  {
    if m.None? || m.value.kind != MappingKind {
      return None;
    }
    var c := m.value.content;
    var i := 0;
    while i < |c| - 1
      invariant 0 <= i && i % 2 == 0
      invariant LookupFrom(m.value, key, i) == Lookup(m.value, key)
    {
      var k := c[i];
      if k.value == key {
        return Some(c[i + 1]);
      }
      i := i + 2;
    }
    return None;
  }
}
