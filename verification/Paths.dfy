/** Where the instances keep their files (comfyctl/paths.py). A path is the sequence of its
    segments; symbolic links are not followed. */
module Paths {

  type Path = seq<string>

  /** What an instance directory goes by: the data root of the host, resolved, and the slug. */
  datatype Dir = Dir(root: string, dirSlug: string)

  datatype Artefact = CheckoutTree | VenvTree | ManifestFile

  /** A place that an install knows about. `Staging` and `Previous` name a directory of one run,
      or an artefact in it. `Elsewhere` is any other path on the machine. */
  datatype Place =
    | Active(slug: string, artefact: Artefact)
    | Lock(slug: string)
    | Staging(slug: string, run: string, part: seq<Artefact>)
    | Previous(slug: string, run: string, part: seq<Artefact>)
    | Elsewhere(path: Path)

  predicate IsAlnum(c: char) {
    'a' <= c <= 'z' || 'A' <= c <= 'Z' || '0' <= c <= '9'
  }

  /** The slug pattern, `^[a-zA-Z0-9][a-zA-Z0-9_.-]{0,79}$`. */
  predicate ValidSlug(slug: string) {
    && 1 <= |slug| <= 80
    && IsAlnum(slug[0])
    && forall c <- slug :: IsAlnum(c) || c in "_.-"
  }

  /** A valid slug is one segment that names a child: no separator, neither `.` nor `..`. */
  lemma SlugIsOneSegment(slug: string)
    requires ValidSlug(slug)
    ensures '/' !in slug && slug != "." && slug != ".."
  {}

  function Leaf(a: Artefact): string {
    match a
    case CheckoutTree => "ComfyUI"
    case VenvTree => ".venv"
    case ManifestFile => "manifest.json"
  }

  function Leaves(part: seq<Artefact>): Path {
    seq(|part|, i requires 0 <= i < |part| => Leaf(part[i]))
  }

  function InstanceRoot(dataRoot: Path, slug: string): Path {
    dataRoot + ["ComfyUI-Installs", slug]
  }

  function PathOf(dataRoot: Path, place: Place): Path {
    match place
    case Active(slug, a) => InstanceRoot(dataRoot, slug) + [Leaf(a)]
    case Lock(slug) => InstanceRoot(dataRoot, slug) + ["instance.lock"]
    case Staging(slug, run, part) => InstanceRoot(dataRoot, slug) + [".staging", run] + Leaves(part)
    case Previous(slug, run, part) => InstanceRoot(dataRoot, slug) + [".previous", run] + Leaves(part)
    case Elsewhere(path) => path
  }

  /** The first segment below the instance root. */
  function Top(place: Place): string
    requires !place.Elsewhere?
  {
    match place
    case Active(_, a) => Leaf(a)
    case Lock(_) => "instance.lock"
    case Staging(_, _, _) => ".staging"
    case Previous(_, _, _) => ".previous"
  }

  lemma TopsApart(p: Place, q: Place)
    requires !p.Elsewhere? && !q.Elsewhere? && Top(p) == Top(q)
    ensures p.Active? <==> q.Active?
    ensures p.Lock? <==> q.Lock?
    ensures p.Staging? <==> q.Staging?
    ensures p.Active? ==> p.artefact == q.artefact
  {}

  lemma LeavesInjective(a: seq<Artefact>, b: seq<Artefact>)
    requires Leaves(a) == Leaves(b)
    ensures a == b
  {
    forall i | 0 <= i < |a| ensures a[i] == b[i] {
      assert Leaf(a[i]) == Leaves(a)[i] == Leaves(b)[i] == Leaf(b[i]);
      assert Leaf(a[i])[0] == Leaf(b[i])[0];
    }
  }

  /** Different places of any instances are different paths. */
  lemma PlacesApart(dataRoot: Path, p: Place, q: Place)
    requires !p.Elsewhere? && !q.Elsewhere?
    requires PathOf(dataRoot, p) == PathOf(dataRoot, q)
    ensures p == q
  {
    var n, a, b := |dataRoot|, PathOf(dataRoot, p), PathOf(dataRoot, q);
    assert p.slug == a[n + 1] == b[n + 1] == q.slug;
    assert Top(p) == a[n + 2] == b[n + 2] == Top(q);
    TopsApart(p, q);
    if p.Staging? || p.Previous? {
      assert p.run == a[n + 3] == b[n + 3] == q.run;
      assert Leaves(p.part) == a[n + 4..] == b[n + 4..] == Leaves(q.part);
      LeavesInjective(p.part, q.part);
    }
  }

  /** Every place of an instance lies in the tree below its root, and the trees are disjoint. */
  lemma TreesDisjoint(dataRoot: Path, p: Place, other: string)
    requires !p.Elsewhere?
    ensures InstanceRoot(dataRoot, p.slug) <= PathOf(dataRoot, p)
    ensures InstanceRoot(dataRoot, other) <= PathOf(dataRoot, p) ==> other == p.slug
  {
    var n, path := |dataRoot|, PathOf(dataRoot, p);
    assert path[n + 1] == p.slug;
    assert InstanceRoot(dataRoot, other)[n + 1] == other;
  }
}
