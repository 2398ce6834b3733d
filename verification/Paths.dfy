// Paths as component lists, in the order Python's pathlib sorts them.
module Paths {
  type Path = seq<string>

  // ---- The order ----

  predicate TextLess(s: string, t: string) {
    t != "" && (s == "" || s[0] < t[0] || (s[0] == t[0] && TextLess(s[1..], t[1..])))
  }

  predicate Less(p: Path, q: Path) {
    q != [] && (p == [] || TextLess(p[0], q[0]) || (p[0] == q[0] && Less(p[1..], q[1..])))
  }

  lemma {:induction false} TextOrder(s: string, t: string, u: string)
    ensures TextLess(s, t) ==> !TextLess(t, s) && s != t
    ensures s != t ==> TextLess(s, t) || TextLess(t, s)
    ensures TextLess(s, t) && TextLess(t, u) ==> TextLess(s, u)
    decreases |s| + |t| + |u|
  {
    if s != "" && t != "" {
      TextOrder(s[1..], t[1..], if u != "" then u[1..] else u);
      assert s == [s[0]] + s[1..] && t == [t[0]] + t[1..];
    }
  }

  lemma {:induction false} Order(p: Path, q: Path, r: Path)
    ensures Less(p, q) ==> !Less(q, p) && p != q
    ensures p != q ==> Less(p, q) || Less(q, p)
    ensures Less(p, q) && Less(q, r) ==> Less(p, r)
    decreases |p| + |q| + |r|
  {
    if p != [] && q != [] {
      TextOrder(p[0], q[0], if r != [] then r[0] else "");
      Order(p[1..], q[1..], if r != [] then r[1..] else r);
      assert p == [p[0]] + p[1..] && q == [q[0]] + q[1..];
      if r != [] {
        TextOrder(q[0], r[0], p[0]);
      }
    }
  }

  // A directory sorts before everything inside it.
  lemma {:induction false} DirectoryFirst(p: Path, q: Path)
    requires p < q
    ensures Less(p, q)
  {
    if p != [] {
      assert p[0] == q[0] && p[1..] < q[1..];
      DirectoryFirst(p[1..], q[1..]);
    }
  }

  // ---- sorted() ----

  predicate IsSorted(order: seq<Path>) {
    forall i, j :: 0 <= i < j < |order| ==> Less(order[i], order[j])
  }

  method Least(paths: set<Path>) returns (least: Path)
    requires paths != {}
    ensures least in paths && forall p :: p in paths ==> p == least || Less(least, p)
  {
    least :| least in paths;
    var todo := paths - {least};
    while todo != {}
      invariant todo < paths && least in paths
      invariant forall p :: p in paths - todo ==> p == least || Less(least, p)
      decreases todo
    {
      var p :| p in todo;
      if Less(p, least) {
        forall q | q in paths - todo && q != least
          ensures Less(p, q)
        {
          Order(p, least, q);
        }
        least := p;
      } else {
        Order(p, least, p);
      }
      todo := todo - {p};
    }
  }

  method Sorted(paths: set<Path>) returns (order: seq<Path>)
    ensures IsSorted(order) && forall p :: p in order <==> p in paths
  {
    order := [];
    var todo := paths;
    while todo != {}
      invariant todo <= paths && IsSorted(order)
      invariant forall p :: p in order <==> p in paths && p !in todo
      invariant forall p, q :: p in order && q in todo ==> Less(p, q)
      decreases todo
    {
      var least := Least(todo);
      order := order + [least];
      todo := todo - {least};
    }
  }

  // In sorted order, whatever is inside a directory comes after it, so a walk in reverse
  // meets every descendant first.
  lemma DescendantsComeLater(order: seq<Path>, i: nat, j: nat)
    requires IsSorted(order) && i < |order| && j < |order| && order[i] < order[j]
    ensures i < j
  {
    DirectoryFirst(order[i], order[j]);
    Order(order[i], order[j], order[i]);
  }
}
