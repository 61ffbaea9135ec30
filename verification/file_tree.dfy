/**
 * The part of the filesystem the scanner reads, as an immutable tree. A directory
 * lists its entries in the order `Path.iterdir` yields them.
 */
module FileTree {
  import opened Base

  datatype Node = Dir(entries: seq<Entry>) | File(content: string)

  datatype Entry = Entry(name: string, node: Node)

  /** The entry called `name` in a listing; the first one, should a listing repeat a name. */
  function Child(entries: seq<Entry>, name: string): (r: Option<Node>)
    ensures r.None? <==> forall i :: 0 <= i < |entries| ==> entries[i].name != name
    ensures r.Some? ==> exists i :: && 0 <= i < |entries| && entries[i].name == name
                                    && entries[i].node == r.value
                                    && forall j :: 0 <= j < i ==> entries[j].name != name
  {
    if |entries| == 0 then None
    else if entries[0].name == name then Some(entries[0].node)
    else
      var r := Child(entries[1..], name);
      assert forall i :: 1 <= i < |entries| ==> entries[i] == entries[1..][i - 1];
      r
  }

  predicate IsDirectory(e: Entry) {
    e.node.Dir?
  }

  /** The entries of a listing that pass `keep`, in listing order: a filtering list comprehension. */
  function Select(keep: Entry -> bool, entries: seq<Entry>): (r: seq<Entry>)
    ensures forall e :: e in r <==> e in entries && keep(e)
    ensures |r| <= |entries|
  {
    if |entries| == 0 then []
    else (if keep(entries[0]) then [entries[0]] else []) + Select(keep, entries[1..])
  }

  /** Selection keeps listing order: selecting from `a + b` is selecting from `a`, then from `b`. */
  lemma {:induction false} SelectAppend(keep: Entry -> bool, a: seq<Entry>, b: seq<Entry>)
    ensures Select(keep, a + b) == Select(keep, a) + Select(keep, b)
  {
    if |a| == 0 {
      assert a + b == b;
    } else {
      assert (a + b)[0] == a[0];
      assert (a + b)[1..] == a[1..] + b;
      SelectAppend(keep, a[1..], b);
    }
  }

  /** `node / name`, when it exists: a file has no children. */
  function Join(node: Node, name: string): (r: Option<Node>)
    ensures node.File? ==> r.None?
    ensures node.Dir? ==> (r.Some? <==> exists i :: 0 <= i < |node.entries| && node.entries[i].name == name)
    ensures node.Dir? && r.Some? ==>
              exists i :: && 0 <= i < |node.entries| && node.entries[i].name == name
                          && node.entries[i].node == r.value
                          && forall j :: 0 <= j < i ==> node.entries[j].name != name
  {
    match node
    case Dir(entries) => Child(entries, name)
    case File(_) => None
  }

  /** `node / p[0] / p[1] / ...`, when it exists (`Path.exists`). */
  function Lookup(node: Node, path: seq<string>): (r: Option<Node>)
    ensures |path| == 0 ==> r == Some(node)
    ensures |path| == 1 ==> r == Join(node, path[0])
    ensures node.File? && |path| > 0 ==> r.None?
    decreases |path|
  {
    if |path| == 0 then Some(node)
    else
      match Join(node, path[0])
      case None => None
      case Some(child) => Lookup(child, path[1..])
  }

  /** Walking `p + q` is walking `p`, then walking `q` from where `p` ends; a missing step stops the walk. */
  lemma {:induction false} LookupAppend(node: Node, p: seq<string>, q: seq<string>)
    ensures Lookup(node, p + q) == match Lookup(node, p)
                                   case None => None
                                   case Some(n) => Lookup(n, q)
    decreases |p|
  {
    if |p| == 0 {
      assert p + q == q;
    } else {
      assert (p + q)[0] == p[0];
      assert (p + q)[1..] == p[1..] + q;
      match Join(node, p[0])
      case None =>
      case Some(child) => LookupAppend(child, p[1..], q);
    }
  }
}
