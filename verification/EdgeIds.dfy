/** Resource keys and edge identifiers: when they tell edges apart, and the order edges are sorted in. */
module EdgeIds {
  import opened Lists

  datatype Ref = Ref(group: string, version: string, kind: string, namespace: string, name: string, uid: string)
  {
    /** The stable identity of a resource. */
    function Key(): string {
      group + "/" + version + "/" + kind + "/" + namespace + "/" + name
    }

    /** The parts hold no slash and the group no colon. */
    predicate Plain() {
      && '/' !in group && '/' !in version && '/' !in kind && '/' !in namespace && '/' !in name
      && ':' !in group
    }
  }

  function EdgeId(kind: string, source: string, target: string): string {
    kind + ":" + source + ":" + target
  }

  /** The part of an edge between the source's last slash and the target's first one. */
  function Middle(a: Ref, b: Ref): string {
    a.name + ":" + b.group
  }

  function Tail(b: Ref): string {
    b.version + "/" + b.kind + "/" + b.namespace + "/" + b.name
  }

  lemma EdgeText(a: Ref, b: Ref)
    ensures a.Key() + ":" + b.Key()
            == a.group + "/" + (a.version + "/" + (a.kind + "/" + (a.namespace + "/" + (Middle(a, b) + "/" + Tail(b)))))
    ensures b.Key() == b.group + "/" + Tail(b)
  {
    var lhs := a.Key() + ":" + b.Key();
    assert b.Key() == b.group + "/" + Tail(b);
    assert lhs == a.group + "/" + a.version + "/" + a.kind + "/" + a.namespace + "/" + a.name + ":" + b.group + "/"
        + Tail(b);
  }

  /** Edges between plain resources have equal identifiers only when both ends are equal. */
  lemma EdgeIdInjective(kind: string, a: Ref, b: Ref, c: Ref, d: Ref)
    requires a.Plain() && b.Plain() && c.Plain() && d.Plain()
    requires EdgeId(kind, a.Key(), b.Key()) == EdgeId(kind, c.Key(), d.Key())
    ensures a.Key() == c.Key() && b.Key() == d.Key()
  {
    var head := kind + ":";
    assert EdgeId(kind, a.Key(), b.Key()) == head + (a.Key() + ":" + b.Key());
    assert EdgeId(kind, c.Key(), d.Key()) == head + (c.Key() + ":" + d.Key());
    assert (head + (a.Key() + ":" + b.Key()))[|head|..] == a.Key() + ":" + b.Key();
    assert (head + (c.Key() + ":" + d.Key()))[|head|..] == c.Key() + ":" + d.Key();
    EdgeText(a, b);
    EdgeText(c, d);
    var m, n := Middle(a, b) + "/" + Tail(b), Middle(c, d) + "/" + Tail(d);
    CutAtFirst('/', a.group, c.group, a.version + "/" + (a.kind + "/" + (a.namespace + "/" + m)), c.version + "/"
        + (c.kind + "/" + (c.namespace + "/" + n)));
    CutAtFirst('/', a.version, c.version, a.kind + "/" + (a.namespace + "/" + m), c.kind + "/"
        + (c.namespace + "/" + n));
    CutAtFirst('/', a.kind, c.kind, a.namespace + "/" + m, c.namespace + "/" + n);
    CutAtFirst('/', a.namespace, c.namespace, m, n);
    CutAtFirst('/', Middle(a, b), Middle(c, d), Tail(b), Tail(d));
    CutAtLast(':', a.name, c.name, b.group, d.group);
  }

  // ---------------------------------------------------------------------------------------------
  // Order
  // ---------------------------------------------------------------------------------------------

  /** Lexicographic order. */
  predicate Less(a: string, b: string) {
    b != "" && (a == "" || a[0] < b[0] || (a[0] == b[0] && Less(a[1..], b[1..])))
  }

  lemma {:induction false} LessIsTotal(a: string, b: string)
    ensures a == b || Less(a, b) || Less(b, a)
    ensures !(Less(a, b) && (a == b || Less(b, a)))
  {
    if a != "" && b != "" && a[0] == b[0] {
      LessIsTotal(a[1..], b[1..]);
      assert a == [a[0]] + a[1..] && b == [b[0]] + b[1..];
    }
  }

  lemma {:induction false} LessIsTransitive(a: string, b: string, c: string)
    requires Less(a, b) && Less(b, c)
    ensures Less(a, c)
  {
    if a != "" && a[0] == b[0] == c[0] {
      LessIsTransitive(a[1..], b[1..], c[1..]);
    }
  }
}
