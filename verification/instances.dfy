/**
 The instance tree that the scaling engine walks. The engine's class
 hierarchy becomes a closed set of kinds, one per branch of the traversal's
 dispatch plus the kinds it treats as plain containers, and every instance
 holds its children in the order the engine enumerates them.

 The `Enabled` flags of the weld constraints below an instance are read and
 written as one list, in preorder. The traversal never adds, removes or
 reorders instances, so the position of a weld in that list identifies the
 same weld before and after scaling: the list plays the part of the engine's
 map keyed by weld identity.
 */
module Instances {
  import opened Vectors
  import opened Geometry

  /** The rotation part of a part's coordinate frame, carried unchanged. */
  datatype Rotation = Rotation(matrix: seq<real>)

  datatype Part = Part(size: Vec3, position: Vec3, rotation: Rotation)
  datatype Attachment = Attachment(worldPosition: Vec3)
  datatype SpecialMesh = SpecialMesh(scale: Vec3)
  datatype Fire = Fire(size: real)
  datatype Explosion = Explosion(position: Vec3, blastPressure: real, blastRadius: real)
  datatype ParticleEmitter = ParticleEmitter(size: seq<Keypoint>)
  datatype Texture = Texture(offsetStudsU: real, offsetStudsV: real, studsPerTileU: real, studsPerTileV: real)
  datatype PointLight = PointLight(range: real)
  datatype WeldConstraint = WeldConstraint(enabled: bool)

  /** What an instance is, with the properties the engine reads and writes. */
  datatype Kind =
    | PartNode(part: Part)
    | ModelNode
    | AttachmentNode(attachment: Attachment)
    | ToolNode
    | MeshNode(mesh: SpecialMesh)
    | FireNode(fire: Fire)
    | ExplosionNode(explosion: Explosion)
    | ParticleNode(emitter: ParticleEmitter)
    | TextureNode(texture: Texture)
    | PointLightNode(light: PointLight)
    | WeldNode(weld: WeldConstraint)
    | OtherNode

  datatype Instance = Instance(kind: Kind, children: seq<Instance>)

  /** The number of instances in a tree. */
  function Size(n: Instance): nat
    decreases n, 1
  {
    1 + SizeList(n.children)
  }

  function SizeList(ns: seq<Instance>): nat
    decreases ns, 0
  {
    if |ns| == 0 then 0 else Size(ns[0]) + SizeList(ns[1..])
  }

  /** The number of weld constraints in a tree, itself included. */
  function WeldCount(n: Instance): nat
    decreases n, 1
  {
    (if n.kind.WeldNode? then 1 else 0) + WeldCountList(n.children)
  }

  function WeldCountList(ns: seq<Instance>): nat
    decreases ns, 0
  {
    if |ns| == 0 then 0 else WeldCount(ns[0]) + WeldCountList(ns[1..])
  }

  /** The `Enabled` flags of the welds of a tree, in preorder. */
  function WeldFlags(n: Instance): (r: seq<bool>)
    ensures |r| == WeldCount(n)
    decreases n, 1
  {
    (if n.kind.WeldNode? then [n.kind.weld.enabled] else []) + WeldFlagsList(n.children)
  }

  function WeldFlagsList(ns: seq<Instance>): (r: seq<bool>)
    ensures |r| == WeldCountList(ns)
    decreases ns, 0
  {
    if |ns| == 0 then [] else WeldFlags(ns[0]) + WeldFlagsList(ns[1..])
  }

  /** Writes the given flags into the welds of a tree, in preorder, and
      changes nothing else. */
  function SetWelds(n: Instance, flags: seq<bool>): (r: Instance)
    requires |flags| == WeldCount(n)
    ensures WeldFlags(r) == flags
    ensures Size(r) == Size(n)
    ensures Skeleton(r) == Skeleton(n)
    decreases n, 1
  {
    if n.kind.WeldNode? then
      var r := Instance(WeldNode(WeldConstraint(flags[0])), SetWeldsList(n.children, flags[1..]));
      assert flags == [flags[0]] + flags[1..];
      r
    else
      Instance(n.kind, SetWeldsList(n.children, flags))
  }

  function SetWeldsList(ns: seq<Instance>, flags: seq<bool>): (r: seq<Instance>)
    requires |flags| == WeldCountList(ns)
    ensures WeldFlagsList(r) == flags
    ensures SizeList(r) == SizeList(ns)
    ensures SkeletonList(r) == SkeletonList(ns)
    decreases ns, 0
  {
    if |ns| == 0 then
      []
    else
      var k := WeldCount(ns[0]);
      var r := [SetWelds(ns[0], flags[..k])] + SetWeldsList(ns[1..], flags[k..]);
      assert r[1..] == SetWeldsList(ns[1..], flags[k..]);
      assert flags == flags[..k] + flags[k..];
      r
  }

  /** `a` and `b` differ at most in the flags of their welds: welds sit at
      the same places, and every other instance has the same kind. */
  predicate SameOffWelds(a: Instance, b: Instance)
    decreases a, 1
  {
    (if a.kind.WeldNode? then b.kind.WeldNode? else b.kind == a.kind)
    && SameOffWeldsList(a.children, b.children)
  }

  predicate SameOffWeldsList(xs: seq<Instance>, ys: seq<Instance>)
    decreases xs, 0
  {
    |xs| == |ys| && (|xs| == 0 || (SameOffWelds(xs[0], ys[0]) && SameOffWeldsList(xs[1..], ys[1..])))
  }

  /** The point lights of a tree, in preorder. */
  function PointLights(n: Instance): seq<PointLight>
    decreases n, 1
  {
    (if n.kind.PointLightNode? then [n.kind.light] else []) + PointLightsList(n.children)
  }

  function PointLightsList(ns: seq<Instance>): seq<PointLight>
    decreases ns, 0
  {
    if |ns| == 0 then [] else PointLights(ns[0]) + PointLightsList(ns[1..])
  }

  /** `n` copies of the flag `false`. */
  function AllDisabled(n: nat): (r: seq<bool>)
    ensures |r| == n
    ensures forall i :: 0 <= i < n ==> !r[i]
  {
    seq(n, _ => false)
  }

  /** The shape of a tree: which kind of instance sits where, with the
      properties forgotten and welds told apart from everything else. */
  datatype Shape = Shape(tag: nat, children: seq<Shape>)

  function Tag(k: Kind): nat {
    match k
    case PartNode(_) => 0
    case ModelNode => 1
    case AttachmentNode(_) => 2
    case ToolNode => 3
    case MeshNode(_) => 4
    case FireNode(_) => 5
    case ExplosionNode(_) => 6
    case ParticleNode(_) => 7
    case TextureNode(_) => 8
    case PointLightNode(_) => 9
    case WeldNode(_) => 10
    case OtherNode => 11
  }

  function Skeleton(n: Instance): Shape
    decreases n, 1
  {
    Shape(Tag(n.kind), SkeletonList(n.children))
  }

  function SkeletonList(ns: seq<Instance>): seq<Shape>
    decreases ns, 0
  {
    if |ns| == 0 then [] else [Skeleton(ns[0])] + SkeletonList(ns[1..])
  }

  lemma {:induction false} SetWeldsOwnFlags(n: Instance)
    ensures SetWelds(n, WeldFlags(n)) == n
    decreases n, 1
  {
    SetWeldsListOwnFlags(n.children);
    if n.kind.WeldNode? {
      var flags := WeldFlags(n);
      assert flags == [n.kind.weld.enabled] + WeldFlagsList(n.children);
      assert flags[0] == n.kind.weld.enabled;
      assert flags[1..] == WeldFlagsList(n.children);
    } else {
      assert WeldFlags(n) == WeldFlagsList(n.children);
    }
  }

  /** Writing back the flags a list of trees already has changes nothing. */
  lemma {:induction false} SetWeldsListOwnFlags(ns: seq<Instance>)
    ensures SetWeldsList(ns, WeldFlagsList(ns)) == ns
    decreases ns, 0
  {
    if |ns| > 0 {
      var flags := WeldFlagsList(ns);
      var k := WeldCount(ns[0]);
      assert flags[..k] == WeldFlags(ns[0]);
      assert flags[k..] == WeldFlagsList(ns[1..]);
      SetWeldsOwnFlags(ns[0]);
      SetWeldsListOwnFlags(ns[1..]);
      assert ns == [ns[0]] + ns[1..];
    }
  }

  lemma {:induction false} SetWeldsTwice(n: Instance, first: seq<bool>, second: seq<bool>)
    requires |first| == |second| == WeldCount(n)
    ensures SetWelds(SetWelds(n, first), second) == SetWelds(n, second)
    decreases n, 1
  {
    if n.kind.WeldNode? {
      SetWeldsListTwice(n.children, first[1..], second[1..]);
    } else {
      SetWeldsListTwice(n.children, first, second);
    }
  }

  /** Only the last of two writes of the weld flags is visible. */
  lemma {:induction false} SetWeldsListTwice(ns: seq<Instance>, first: seq<bool>, second: seq<bool>)
    requires |first| == |second| == WeldCountList(ns)
    ensures SetWeldsList(SetWeldsList(ns, first), second) == SetWeldsList(ns, second)
    decreases ns, 0
  {
    if |ns| > 0 {
      var k := WeldCount(ns[0]);
      var once := SetWeldsList(ns, first);
      assert once[0] == SetWelds(ns[0], first[..k]);
      assert once[1..] == SetWeldsList(ns[1..], first[k..]);
      SetWeldsTwice(ns[0], first[..k], second[..k]);
      SetWeldsListTwice(ns[1..], first[k..], second[k..]);
    }
  }

  lemma {:induction false} OnlyWeldsDiffer(n: Instance, m: Instance)
    requires SameOffWelds(n, m)
    ensures WeldCount(m) == WeldCount(n)
    ensures m == SetWelds(n, WeldFlags(m))
    decreases n, 1
  {
    OnlyWeldsDifferList(n.children, m.children);
    var flags := WeldFlags(m);
    if n.kind.WeldNode? {
      assert flags[0] == m.kind.weld.enabled;
      assert flags[1..] == WeldFlagsList(m.children);
    } else {
      assert flags == WeldFlagsList(m.children);
    }
  }

  /** A list of trees that differs from `ns` at most in its weld flags is
      `ns` with those flags written in: the frame and the flags determine
      the result of a write. */
  lemma {:induction false} OnlyWeldsDifferList(ns: seq<Instance>, ms: seq<Instance>)
    requires SameOffWeldsList(ns, ms)
    ensures WeldCountList(ms) == WeldCountList(ns)
    ensures ms == SetWeldsList(ns, WeldFlagsList(ms))
    decreases ns, 0
  {
    if |ns| > 0 {
      OnlyWeldsDiffer(ns[0], ms[0]);
      OnlyWeldsDifferList(ns[1..], ms[1..]);
      var flags := WeldFlagsList(ms);
      var k := WeldCount(ns[0]);
      assert flags[..k] == WeldFlags(ms[0]);
      assert flags[k..] == WeldFlagsList(ms[1..]);
      assert ms == [ms[0]] + ms[1..];
    }
  }

  lemma {:induction false} SetWeldsFrame(n: Instance, flags: seq<bool>)
    requires |flags| == WeldCount(n)
    ensures SameOffWelds(n, SetWelds(n, flags))
    decreases n, 1
  {
    if n.kind.WeldNode? {
      SetWeldsListFrame(n.children, flags[1..]);
    } else {
      SetWeldsListFrame(n.children, flags);
    }
  }

  /** Writing weld flags changes nothing but those flags. */
  lemma {:induction false} SetWeldsListFrame(ns: seq<Instance>, flags: seq<bool>)
    requires |flags| == WeldCountList(ns)
    ensures SameOffWeldsList(ns, SetWeldsList(ns, flags))
    decreases ns, 0
  {
    if |ns| > 0 {
      var k := WeldCount(ns[0]);
      var r := SetWeldsList(ns, flags);
      assert r[0] == SetWelds(ns[0], flags[..k]);
      assert r[1..] == SetWeldsList(ns[1..], flags[k..]);
      SetWeldsFrame(ns[0], flags[..k]);
      SetWeldsListFrame(ns[1..], flags[k..]);
    }
  }
}
