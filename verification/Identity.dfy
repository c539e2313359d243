/** Kinds, keys and the names derived from them. */
module Identity {

  datatype Kind = Model | Dataset | Notebook | Server

  datatype Id = Id(kind: Kind, ns: string, name: string)

  datatype JobRole = BuildJob | RunJob

  /** Kinds whose readiness means that a Job has run to completion. */
  predicate Trained(id: Id) {
    id.kind == Model || id.kind == Dataset
  }

  function KindName(k: Kind): string {
    match k
    case Model => "model"
    case Dataset => "dataset"
    case Notebook => "notebook"
    case Server => "server"
  }

  /******* The input of the artifact hash *******/

  function HashInput(cluster: string, id: Id): string {
    "clusters/" + cluster + "/namespaces/" + id.ns + "/" + KindName(id.kind) + "s" + "/" + id.name
  }

  /** Two strings that start with slash-free segments followed by a slash start with the same segment. */
  lemma SameSegment(a: string, x: string, b: string, y: string)
    requires '/' !in a && '/' !in b
    requires a + "/" + x == b + "/" + y
    ensures a == b && x == y
  {
    var s, t := a + "/" + x, b + "/" + y;
    assert s[|a|] == '/' && t[|b|] == '/';
    assert forall i :: 0 <= i < |a| ==> s[i] == a[i];
    assert forall i :: 0 <= i < |b| ==> t[i] == b[i];
    assert |a| == |b|;
    assert a == s[..|a|] == t[..|b|] == b;
    assert x == s[|a| + 1..] == t[|b| + 1..] == y;
  }

  function Segments(cluster: string, id: Id): string {
    cluster + "/" + ("namespaces/" + (id.ns + "/" + (KindName(id.kind) + "s" + "/" + id.name)))
  }

  lemma Shape(cluster: string, id: Id)
    ensures HashInput(cluster, id) == "clusters/" + Segments(cluster, id)
  {
  }

  lemma DropPrefix(p: string, a: string, b: string)
    requires p + a == p + b
    ensures a == b
  {
    assert a == (p + a)[|p|..] == (p + b)[|p|..] == b;
  }

  lemma PluralsDiffer(j: Kind, k: Kind)
    requires KindName(j) + "s" == KindName(k) + "s"
    ensures j == k
  {
    assert (KindName(j) + "s")[0] == (KindName(k) + "s")[0];
  }

  /** Up to collisions of the hash itself, no two objects share an artifact directory: neither in one cluster nor
      across clusters that share a bucket. Names may even contain slashes; clusters and namespaces may not. */
  lemma HashInputInjective(cluster: string, id: Id, cluster': string, id': Id)
    requires '/' !in cluster && '/' !in cluster' && '/' !in id.ns && '/' !in id'.ns
    ensures HashInput(cluster, id) == HashInput(cluster', id') <==> cluster == cluster' && id == id'
  {
    if HashInput(cluster, id) == HashInput(cluster', id') {
      Shape(cluster, id);
      Shape(cluster', id');
      DropPrefix("clusters/", Segments(cluster, id), Segments(cluster', id'));
      var rest := id.ns + "/" + (KindName(id.kind) + "s" + "/" + id.name);
      var rest' := id'.ns + "/" + (KindName(id'.kind) + "s" + "/" + id'.name);
      SameSegment(cluster, "namespaces/" + rest, cluster', "namespaces/" + rest');
      DropPrefix("namespaces/", rest, rest');
      SameSegment(id.ns, KindName(id.kind) + "s" + "/" + id.name, id'.ns, KindName(id'.kind) + "s" + "/" + id'.name);
      PluralsSlashFree(id.kind);
      PluralsSlashFree(id'.kind);
      SameSegment(KindName(id.kind) + "s", id.name, KindName(id'.kind) + "s", id'.name);
      PluralsDiffer(id.kind, id'.kind);
    }
  }

  lemma PluralsSlashFree(k: Kind)
    ensures '/' !in KindName(k) + "s"
  {
  }

  /******* Names of children *******/

  datatype Child = BuildJobChild(kind: Kind) | ModellerChild | LoaderChild | NotebookChild | ServerChild

  function Suffix(c: Child): string {
    match c
    case BuildJobChild(kind) => "-" + KindName(kind) + "-bld"
    case ModellerChild => "-modeller"
    case LoaderChild => "-data-loader"
    case NotebookChild => "-notebook"
    case ServerChild => "-server"
  }

  predicate IsJob(c: Child) {
    c.BuildJobChild? || c.ModellerChild? || c.LoaderChild?
  }

  function ChildName(parent: string, c: Child): string {
    parent + Suffix(c)
  }

  lemma FromTheEnd(parent: string, c: Child, k: nat)
    requires k < |Suffix(c)|
    ensures k < |ChildName(parent, c)|
    ensures ChildName(parent, c)[|ChildName(parent, c)| - 1 - k] == Suffix(c)[|Suffix(c)| - 1 - k]
  {
    hide Suffix;
  }

  /** The last character tells build Jobs from the others, the fifth from the end one kind from another, and the third
      from the end the two run Jobs. */
  lemma SuffixesTell(c: Child, d: Child) returns (k: nat)
    requires IsJob(c) && IsJob(d) && c != d
    ensures k < |Suffix(c)| && k < |Suffix(d)|
    ensures Suffix(c)[|Suffix(c)| - 1 - k] != Suffix(d)[|Suffix(d)| - 1 - k]
  {
    EndOf(c);
    EndOf(d);
    k := if c.BuildJobChild? && d.BuildJobChild? then 4 else if c.BuildJobChild? || d.BuildJobChild? then 0 else 2;
  }

  lemma EndOf(c: Child)
    requires IsJob(c)
    ensures var s := Suffix(c);
            |s| > 4
            && match c
               case BuildJobChild(kind) =>
                 s[|s| - 1] == 'd' && s[|s| - 5] ==
                   (match kind case Model => 'l' case Dataset => 't' case Notebook => 'k' case Server => 'r')
               case ModellerChild => s[|s| - 1] == 'r' && s[|s| - 3] == 'l'
               case LoaderChild => s[|s| - 1] == 'r' && s[|s| - 3] == 'd'
               case _ => true
  {
  }

  /** Job names never collide across kind, role and parent name: the key of a Job is determined by its name. */
  lemma JobNamesApart(parent: string, c: Child, parent': string, d: Child)
    requires IsJob(c) && IsJob(d)
    ensures ChildName(parent, c) == ChildName(parent', d) <==> parent == parent' && c == d
  {
    hide Suffix;
    if ChildName(parent, c) == ChildName(parent', d) {
      if c != d {
        var k := SuffixesTell(c, d);
        FromTheEnd(parent, c, k);
        FromTheEnd(parent', d, k);
        assert false;
      }
      assert parent == ChildName(parent, c)[..|parent|];
      assert parent' == ChildName(parent', d)[..|parent'|];
    }
  }

  const NAME_LIMIT := 63
  const PARENT_LIMIT := 50

  /** Fifty is the exact limit: with it every child of every kind has a name of at most 63 characters, and beyond it the
      build Job of a Notebook, whose suffix has 13 characters, does not. */
  lemma NamesFit(parent: string)
    ensures (forall c: Child :: |ChildName(parent, c)| <= NAME_LIMIT) <==> |parent| <= PARENT_LIMIT
  {
    forall c: Child ensures |Suffix(c)| <= 13 {
      SuffixLength(c);
    }
    assert |ChildName(parent, BuildJobChild(Notebook))| == |parent| + 13;
  }

  lemma SuffixLength(c: Child)
    ensures |Suffix(c)| <= 13
  {
  }
}
