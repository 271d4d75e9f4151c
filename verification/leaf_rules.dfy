/**
 The per-instance scaling rules, and the single-pass reference semantics of a
 whole traversal built from them: `Apply` rewrites every instance of a tree
 exactly once with the rule of its kind, passing to attachments the position
 of their nearest enclosing part after that part was scaled.
 */
module LeafRules {
  import opened Options
  import opened Vectors
  import opened ScaleSpecifiers
  import opened Geometry
  import opened Instances

  /** `_scaleBasePart`: the part's position is interpolated about the origin,
      its size multiplied by the size factors, and its rotation kept. */
  function ScaleBasePart(p: Part, scale: ScaleInput, origin: Vec3): (r: Part)
    ensures r.rotation == p.rotation
    ensures Sub(r.position, origin) == Mul(Sub(p.position, origin), Specify(scale).asVector3)
    ensures scale.Vector3? ==> r.size == Mul(p.size, scale.v3)
    ensures !scale.Vector3? ==> r.size == MulScalar(p.size, Specify(scale).asNumber)
  {
    var spec := Specify(scale);
    var factors := SizeFactors(spec);
    SizeFactorsFollowShape(scale);
    Part(Mul(p.size, factors), Lerp(p.position, origin, spec), p.rotation)
  }

  /** `_scaleAttachment`: with an enclosing part, the world position is
      interpolated about that part's position; without one nothing changes. */
  function ScaleAttachment(a: Attachment, scale: ScaleInput, ancestor: Option<Vec3>): (r: Attachment)
    ensures ancestor.None? ==> r == a
    ensures ancestor.Some? ==>
      Sub(r.worldPosition, ancestor.value) == Mul(Sub(a.worldPosition, ancestor.value), Specify(scale).asVector3)
  {
    match ancestor
    case None => a
    case Some(partPosition) => Attachment(Lerp(a.worldPosition, partPosition, Specify(scale)))
  }

  /** `scaleMesh`: the mesh scale is multiplied by the scalar view only. */
  function ScaleMesh(m: SpecialMesh, scale: ScaleInput): (r: SpecialMesh)
    ensures r.scale.x == m.scale.x * Specify(scale).asNumber
    ensures r.scale.y == m.scale.y * Specify(scale).asNumber
    ensures r.scale.z == m.scale.z * Specify(scale).asNumber
  {
    SpecialMesh(MulScalar(m.scale, Specify(scale).asNumber))
  }

  /** `scaleFire`: the size becomes the largest integer not above the
      scaled size. */
  function ScaleFire(f: Fire, scale: ScaleInput): (r: Fire)
    ensures r.size == (r.size.Floor as real)
    ensures r.size <= f.size * Specify(scale).asNumber < r.size + 1.0
  {
    Fire((f.size * Specify(scale).asNumber).Floor as real)
  }

  /** `scaleTexture`: both U fields follow the first axis of the 2D view and
      both V fields its second axis. */
  function ScaleTexture(t: Texture, scale: ScaleInput): (r: Texture)
    ensures r.offsetStudsU == t.offsetStudsU * Specify(scale).asVector2.x
    ensures r.studsPerTileU == t.studsPerTileU * Specify(scale).asVector2.x
    ensures r.offsetStudsV == t.offsetStudsV * Specify(scale).asVector2.y
    ensures r.studsPerTileV == t.studsPerTileV * Specify(scale).asVector2.y
  {
    var v2 := Specify(scale).asVector2;
    Texture(t.offsetStudsU * v2.x, t.offsetStudsV * v2.y, t.studsPerTileU * v2.x, t.studsPerTileV * v2.y)
  }

  /** `scaleExplosion`: the position is multiplied by the size factors (there
      is no centre) and the blast pressure and radius by the scalar view; the
      literal 1 changes nothing. */
  function ScaleExplosion(e: Explosion, scale: ScaleInput): (r: Explosion)
    ensures IsLiteralOne(scale) ==> r == e
    ensures r.position == ScaleVector(e.position, scale, None)
    ensures r.blastPressure == e.blastPressure * Specify(scale).asNumber
    ensures r.blastRadius == e.blastRadius * Specify(scale).asNumber
  {
    if IsLiteralOne(scale) then
      e
    else
      var spec := Specify(scale);
      Explosion(Mul(e.position, SizeFactors(spec)), e.blastPressure * spec.asNumber, e.blastRadius * spec.asNumber)
  }

  /** `scaleParticle`: the size curve is rescaled. */
  function ScaleParticle(pe: ParticleEmitter, scale: ScaleInput): (r: ParticleEmitter)
    ensures |r.size| == |pe.size|
    ensures Times(r.size) == Times(pe.size)
  {
    ScaleNumberSequenceKeepsTimes(pe.size, scale);
    ParticleEmitter(ScaleNumberSequence(pe.size, scale))
  }

  /** `scalePointLight`: the range is multiplied by the scalar view. The
      traversal never calls it: a point light is walked as a plain container. */
  function ScalePointLight(light: PointLight, scale: ScaleInput): (r: PointLight)
    ensures r.range == light.range * Specify(scale).asNumber
  {
    PointLight(light.range * Specify(scale).asNumber)
  }

  /** The rule the traversal applies to an instance of each kind. Models,
      tools, point lights, welds and every other kind are not changed
      themselves. */
  function Rule(k: Kind, scale: ScaleInput, origin: Vec3, ancestor: Option<Vec3>): (r: Kind)
    ensures Tag(r) == Tag(k)
    ensures k.ModelNode? || k.ToolNode? || k.PointLightNode? || k.WeldNode? || k.OtherNode? ==> r == k
  {
    match k
    case PartNode(p) => PartNode(ScaleBasePart(p, scale, origin))
    case AttachmentNode(a) => AttachmentNode(ScaleAttachment(a, scale, ancestor))
    case MeshNode(m) => MeshNode(ScaleMesh(m, scale))
    case FireNode(f) => FireNode(ScaleFire(f, scale))
    case ExplosionNode(e) => ExplosionNode(ScaleExplosion(e, scale))
    case ParticleNode(pe) => ParticleNode(ScaleParticle(pe, scale))
    case TextureNode(t) => TextureNode(ScaleTexture(t, scale))
    case _ => k
  }

  /** The position of the nearest part at or above an instance of kind `k`,
      given that of its parent. */
  function Enclosing(k: Kind, ancestor: Option<Vec3>): Option<Vec3> {
    if k.PartNode? then Some(k.part.position) else ancestor
  }

  /** The reference semantics: every instance of the tree rewritten once by
      its rule, every child given the position of its nearest enclosing part
      as already scaled. No instance is added, removed or reordered and no
      weld flag changes. */
  function Apply(n: Instance, scale: ScaleInput, origin: Vec3, ancestor: Option<Vec3>): (r: Instance)
    ensures Skeleton(r) == Skeleton(n)
    ensures WeldFlags(r) == WeldFlags(n)
    decreases n, 1
  {
    var k := Rule(n.kind, scale, origin, ancestor);
    Instance(k, ApplyList(n.children, scale, origin, Enclosing(k, ancestor)))
  }

  function ApplyList(ns: seq<Instance>, scale: ScaleInput, origin: Vec3, ancestor: Option<Vec3>): (r: seq<Instance>)
    ensures |r| == |ns|
    ensures SkeletonList(r) == SkeletonList(ns)
    ensures WeldFlagsList(r) == WeldFlagsList(ns)
    decreases ns, 0
  {
    if |ns| == 0 then
      []
    else
      var r := [Apply(ns[0], scale, origin, ancestor)] + ApplyList(ns[1..], scale, origin, ancestor);
      assert r[1..] == ApplyList(ns[1..], scale, origin, ancestor);
      r
  }

  // Welds

  lemma {:induction false} ApplyCommutesWithSetWelds(n: Instance, flags: seq<bool>, scale: ScaleInput, origin: Vec3, ancestor: Option<Vec3>)
    requires |flags| == WeldCount(n)
    ensures Apply(SetWelds(n, flags), scale, origin, ancestor) == SetWelds(Apply(n, scale, origin, ancestor), flags)
    decreases n, 1
  {
    var k := Rule(n.kind, scale, origin, ancestor);
    if n.kind.WeldNode? {
      ApplyListCommutesWithSetWelds(n.children, flags[1..], scale, origin, Enclosing(k, ancestor));
    } else {
      ApplyListCommutesWithSetWelds(n.children, flags, scale, origin, Enclosing(k, ancestor));
    }
  }

  /** Scaling does not read weld flags, so writing flags before or after it
      gives the same tree. */
  lemma {:induction false} ApplyListCommutesWithSetWelds(ns: seq<Instance>, flags: seq<bool>, scale: ScaleInput, origin: Vec3, ancestor: Option<Vec3>)
    requires |flags| == WeldCountList(ns)
    ensures ApplyList(SetWeldsList(ns, flags), scale, origin, ancestor) == SetWeldsList(ApplyList(ns, scale, origin, ancestor), flags)
    decreases ns, 0
  {
    if |ns| > 0 {
      var k := WeldCount(ns[0]);
      var written := SetWeldsList(ns, flags);
      assert written[0] == SetWelds(ns[0], flags[..k]);
      assert written[1..] == SetWeldsList(ns[1..], flags[k..]);
      var scaled := ApplyList(ns, scale, origin, ancestor);
      assert scaled[0] == Apply(ns[0], scale, origin, ancestor);
      assert scaled[1..] == ApplyList(ns[1..], scale, origin, ancestor);
      ApplyCommutesWithSetWelds(ns[0], flags[..k], scale, origin, ancestor);
      ApplyListCommutesWithSetWelds(ns[1..], flags[k..], scale, origin, ancestor);
    }
  }

  // Point lights

  lemma {:induction false} ApplyKeepsPointLights(n: Instance, scale: ScaleInput, origin: Vec3, ancestor: Option<Vec3>)
    ensures PointLights(Apply(n, scale, origin, ancestor)) == PointLights(n)
    decreases n, 1
  {
    var k := Rule(n.kind, scale, origin, ancestor);
    var scaled := Apply(n, scale, origin, ancestor);
    assert scaled.children == ApplyList(n.children, scale, origin, Enclosing(k, ancestor));
    assert n.kind.PointLightNode? <==> scaled.kind.PointLightNode?;
    ApplyListKeepsPointLights(n.children, scale, origin, Enclosing(k, ancestor));
  }

  /** The rewrite has no rule for point lights: every point light of the
      tree keeps its range, in every position. */
  lemma {:induction false} ApplyListKeepsPointLights(ns: seq<Instance>, scale: ScaleInput, origin: Vec3, ancestor: Option<Vec3>)
    ensures PointLightsList(ApplyList(ns, scale, origin, ancestor)) == PointLightsList(ns)
    decreases ns, 0
  {
    if |ns| > 0 {
      var scaled := ApplyList(ns, scale, origin, ancestor);
      assert scaled[0] == Apply(ns[0], scale, origin, ancestor);
      assert scaled[1..] == ApplyList(ns[1..], scale, origin, ancestor);
      ApplyKeepsPointLights(ns[0], scale, origin, ancestor);
      ApplyListKeepsPointLights(ns[1..], scale, origin, ancestor);
    }
  }

  // Identity

  /** Every fire in the tree has an integral size. */
  predicate IntegralFires(n: Instance)
    decreases n, 1
  {
    (n.kind.FireNode? ==> n.kind.fire.size == n.kind.fire.size.Floor as real) && IntegralFiresList(n.children)
  }

  predicate IntegralFiresList(ns: seq<Instance>)
    decreases ns, 0
  {
    |ns| == 0 || (IntegralFires(ns[0]) && IntegralFiresList(ns[1..]))
  }

  /** Under a scale whose views are all 1, every rule keeps its instance,
      except that a fire's size is rounded down. */
  lemma UnitRuleIsIdentity(k: Kind, scale: ScaleInput, origin: Vec3, ancestor: Option<Vec3>)
    requires UnitViews(Specify(scale))
    requires k.FireNode? ==> k.fire.size == k.fire.size.Floor as real
    ensures Rule(k, scale, origin, ancestor) == k
  {
    match k
    case PartNode(p) =>
      assert SizeFactors(Specify(scale)) == One;
    case AttachmentNode(a) =>
    case MeshNode(m) =>
    case FireNode(f) =>
    case ExplosionNode(e) =>
      assert SizeFactors(Specify(scale)) == One;
    case ParticleNode(pe) =>
      var r := ScaleNumberSequence(pe.size, scale);
      forall i | 0 <= i < |r|
        ensures r[i] == pe.size[i]
      {
      }
      assert r == pe.size;
    case TextureNode(t) =>
    case _ =>
  }

  lemma {:induction false} UnitApplyIsIdentity(n: Instance, scale: ScaleInput, origin: Vec3, ancestor: Option<Vec3>)
    requires UnitViews(Specify(scale))
    requires IntegralFires(n)
    ensures Apply(n, scale, origin, ancestor) == n
    decreases n, 1
  {
    UnitRuleIsIdentity(n.kind, scale, origin, ancestor);
    UnitApplyListIsIdentity(n.children, scale, origin, Enclosing(n.kind, ancestor));
  }

  /** A traversal under a scale whose views are all 1 changes nothing in a
      tree whose fires have integral sizes. */
  lemma {:induction false} UnitApplyListIsIdentity(ns: seq<Instance>, scale: ScaleInput, origin: Vec3, ancestor: Option<Vec3>)
    requires UnitViews(Specify(scale))
    requires IntegralFiresList(ns)
    ensures ApplyList(ns, scale, origin, ancestor) == ns
    decreases ns, 0
  {
    if |ns| > 0 {
      UnitApplyIsIdentity(ns[0], scale, origin, ancestor);
      UnitApplyListIsIdentity(ns[1..], scale, origin, ancestor);
      assert ns == [ns[0]] + ns[1..];
    }
  }

  /** The fire rule alone breaks the identity: a unit Vector3 scale turns a
      fire of size 2.5 into one of size 2. */
  lemma FireBreaksUnitIdentity()
    ensures ScaleFire(Fire(2.5), Vector3(One)) == Fire(2.0)
  {
    UnitInputsHaveUnitViews(Vector3(One));
    assert (2.5 * 1.0).Floor == 2;
  }

  /** A fire of size 5 scaled by 1.3 has size 6. */
  lemma FireExample()
    ensures ScaleFire(Fire(5.0), Number(1.3)) == Fire(6.0)
  {
    assert (5.0 * 1.3).Floor == 6;
  }

  // Composition

  /** Scaling a part about one origin by the number `a` and then by `b` is
      one scale by `a * b`. */
  lemma PartNumberScalesCompose(p: Part, a: real, b: real, origin: Vec3)
    ensures ScaleBasePart(ScaleBasePart(p, Number(a), origin), Number(b), origin)
         == ScaleBasePart(p, Number(a * b), origin)
  {
    NumberScalesCompose(p.position, origin, a, b);
    var s := p.size;
    assert s.x * a * b == s.x * (a * b) && s.y * a * b == s.y * (a * b) && s.z * a * b == s.z * (a * b);
  }

  /** Scaling a part about one origin by the Vector3 `f` and then by `g` is
      one scale by their component-wise product. */
  lemma PartVector3ScalesCompose(p: Part, f: Vec3, g: Vec3, origin: Vec3)
    ensures ScaleBasePart(ScaleBasePart(p, Vector3(f), origin), Vector3(g), origin)
         == ScaleBasePart(p, Vector3(Mul(f, g)), origin)
  {
    LerpComposes(p.position, origin, Specify(Vector3(f)), Specify(Vector3(g)), Specify(Vector3(Mul(f, g))));
    var once := ScaleBasePart(p, Vector3(f), origin);
    var twice := ScaleBasePart(once, Vector3(g), origin);
    var direct := ScaleBasePart(p, Vector3(Mul(f, g)), origin);
    assert twice.position == direct.position;
    assert twice.rotation == direct.rotation;
    var s := p.size;
    assert twice.size == Mul(Mul(s, f), g);
    assert direct.size == Mul(s, Mul(f, g));
    MulAssociates(s, f, g);
  }

  lemma MulAssociates(s: Vec3, f: Vec3, g: Vec3)
    ensures Mul(Mul(s, f), g) == Mul(s, Mul(f, g))
  {
    assert s.x * f.x * g.x == s.x * (f.x * g.x);
    assert s.y * f.y * g.y == s.y * (f.y * g.y);
    assert s.z * f.z * g.z == s.z * (f.z * g.z);
  }

  /** Scaling a part by a non-zero number and then by its reciprocal about
      the same origin restores it. */
  lemma PartScaleInverse(p: Part, a: real, origin: Vec3)
    requires a != 0.0
    ensures ScaleBasePart(ScaleBasePart(p, Number(a), origin), Number(1.0 / a), origin) == p
  {
    PartNumberScalesCompose(p, a, 1.0 / a, origin);
    assert a * (1.0 / a) == 1.0;
    UnitInputsHaveUnitViews(Number(1.0));
  }

  /** Mesh scales by the numbers `a` and then `b` compose into `a * b`. */
  lemma MeshScalesCompose(m: SpecialMesh, a: real, b: real)
    ensures ScaleMesh(ScaleMesh(m, Number(a)), Number(b)) == ScaleMesh(m, Number(a * b))
  {
    var s := m.scale;
    assert s.x * a * b == s.x * (a * b) && s.y * a * b == s.y * (a * b) && s.z * a * b == s.z * (a * b);
  }

  /** Explosion scales by the numbers `a` and then `b` compose into `a * b`,
      the literal-1 short-circuit included. */
  lemma ExplosionScalesCompose(e: Explosion, a: real, b: real)
    ensures ScaleExplosion(ScaleExplosion(e, Number(a)), Number(b)) == ScaleExplosion(e, Number(a * b))
  {
    var p := e.position;
    assert p.x * a * b == p.x * (a * b) && p.y * a * b == p.y * (a * b) && p.z * a * b == p.z * (a * b);
    assert e.blastPressure * a * b == e.blastPressure * (a * b);
    assert e.blastRadius * a * b == e.blastRadius * (a * b);
  }

  /** Texture scales by Vector2 `f` and then `g` compose into their
      component-wise product. */
  lemma TextureScalesCompose(t: Texture, f: Vec2, g: Vec2)
    ensures ScaleTexture(ScaleTexture(t, Vector2(f)), Vector2(g)) == ScaleTexture(t, Vector2(Vec2(f.x * g.x, f.y * g.y)))
  {
    var once := ScaleTexture(t, Vector2(f));
    assert once == Texture(t.offsetStudsU * f.x, t.offsetStudsV * f.y, t.studsPerTileU * f.x, t.studsPerTileV * f.y);
    assert t.offsetStudsU * f.x * g.x == t.offsetStudsU * (f.x * g.x);
    assert t.studsPerTileU * f.x * g.x == t.studsPerTileU * (f.x * g.x);
    assert t.offsetStudsV * f.y * g.y == t.offsetStudsV * (f.y * g.y);
    assert t.studsPerTileV * f.y * g.y == t.studsPerTileV * (f.y * g.y);
  }

  /** Fire sizes do not compose: 1 scaled by 0.5 and then by 2 is 0, but
      scaled once by 1 it stays 1. */
  lemma FireScalesDoNotCompose()
    ensures ScaleFire(ScaleFire(Fire(1.0), Number(0.5)), Number(2.0)) == Fire(0.0)
    ensures ScaleFire(Fire(1.0), Number(0.5 * 2.0)) == Fire(1.0)
  {
    assert (1.0 * 0.5).Floor == 0;
    assert (0.0 * 2.0).Floor == 0;
    assert (1.0 * (0.5 * 2.0)).Floor == 1;
  }

  /** Point-light scales by the numbers `a` and then `b` compose into `a * b`. */
  lemma PointLightScalesCompose(light: PointLight, a: real, b: real)
    ensures ScalePointLight(ScalePointLight(light, Number(a)), Number(b)) == ScalePointLight(light, Number(a * b))
  {
    assert light.range * a * b == light.range * (a * b);
  }

  /** The tree has no fire (whose rounding does not compose) and no
      attachment (which this model does not move along with its part, so
      its centre moves between two scales). */
  predicate Composable(n: Instance)
    decreases n, 1
  {
    !n.kind.FireNode? && !n.kind.AttachmentNode? && ComposableList(n.children)
  }

  predicate ComposableList(ns: seq<Instance>)
    decreases ns, 0
  {
    |ns| == 0 || (Composable(ns[0]) && ComposableList(ns[1..]))
  }

  /** On a composable kind, the rule for `a` followed by the rule for `b`
      is the rule for `a * b`. */
  lemma RuleComposes(k: Kind, a: real, b: real, origin: Vec3, first: Option<Vec3>, second: Option<Vec3>, once: Option<Vec3>)
    requires !k.FireNode? && !k.AttachmentNode?
    ensures Rule(Rule(k, Number(a), origin, first), Number(b), origin, second) == Rule(k, Number(a * b), origin, once)
  {
    match k
    case PartNode(p) => PartNumberScalesCompose(p, a, b, origin);
    case MeshNode(m) => MeshScalesCompose(m, a, b);
    case ExplosionNode(e) => ExplosionScalesCompose(e, a, b);
    case ParticleNode(pe) => ScaleNumberSequenceComposes(pe.size, a, b);
    case TextureNode(t) =>
      var ta := ScaleTexture(t, Number(a));
      assert ta == Texture(t.offsetStudsU * a, t.offsetStudsV * a, t.studsPerTileU * a, t.studsPerTileV * a);
      assert t.offsetStudsU * a * b == t.offsetStudsU * (a * b);
      assert t.offsetStudsV * a * b == t.offsetStudsV * (a * b);
      assert t.studsPerTileU * a * b == t.studsPerTileU * (a * b);
      assert t.studsPerTileV * a * b == t.studsPerTileV * (a * b);
    case _ =>
  }

  lemma {:induction false} ApplyComposes(n: Instance, a: real, b: real, origin: Vec3, first: Option<Vec3>, second: Option<Vec3>, once: Option<Vec3>)
    requires Composable(n)
    ensures Apply(Apply(n, Number(a), origin, first), Number(b), origin, second) == Apply(n, Number(a * b), origin, once)
    decreases n, 1
  {
    RuleComposes(n.kind, a, b, origin, first, second, once);
    var ka := Rule(n.kind, Number(a), origin, first);
    var kb := Rule(ka, Number(b), origin, second);
    var kab := Rule(n.kind, Number(a * b), origin, once);
    ApplyListComposes(n.children, a, b, origin, Enclosing(ka, first), Enclosing(kb, second), Enclosing(kab, once));
  }

  /** On a tree without fires and attachments, a scale by `a` followed by a
      scale by `b` about the same origin is one scale by `a * b`. */
  lemma {:induction false} ApplyListComposes(ns: seq<Instance>, a: real, b: real, origin: Vec3, first: Option<Vec3>, second: Option<Vec3>, once: Option<Vec3>)
    requires ComposableList(ns)
    ensures ApplyList(ApplyList(ns, Number(a), origin, first), Number(b), origin, second) == ApplyList(ns, Number(a * b), origin, once)
    decreases ns, 0
  {
    if |ns| > 0 {
      var scaled := ApplyList(ns, Number(a), origin, first);
      assert scaled[0] == Apply(ns[0], Number(a), origin, first);
      assert scaled[1..] == ApplyList(ns[1..], Number(a), origin, first);
      ApplyComposes(ns[0], a, b, origin, first, second, once);
      ApplyListComposes(ns[1..], a, b, origin, first, second, once);
    }
  }

  /** A composable tree has no fire, so none with a fractional size. */
  lemma {:induction false} ComposableHasIntegralFires(ns: seq<Instance>)
    requires ComposableList(ns)
    ensures IntegralFiresList(ns)
    decreases ns, 0
  {
    if |ns| > 0 {
      ComposableHasIntegralFires(ns[0].children);
      ComposableHasIntegralFires(ns[1..]);
    }
  }
}
