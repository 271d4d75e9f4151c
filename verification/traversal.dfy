/**
 The traversal dispatcher and its entry points. `ScaleDescendants` suspends
 the welds below a container, hands every child to the first branch its kind
 matches (part, model, attachment, tool, mesh, fire, explosion, particle
 emitter, texture), recurses into the children of every child that was not a
 part, model or tool, and finally restores the welds. Parts, models and tools
 re-enter through their own entry points, which start a nested traversal of
 their own with its own weld suspension.

 `ScaleDescendants`, `ScaleChildren`, `ScaleChild`, `ScalePart`,
 `ScaleModel` and `ScaleTool` are proved equal to the single-pass reference
 `LeafRules.Apply`: each descendant is rewritten exactly once, and the weld
 flags of the tree are those it had before the call.

 The engine queries become inputs: `primary` is what a model offers as its
 anchor (its extents size and its primary part's position) or what a tool
 offers (its handle's size and position), and `ancestor` is the position of
 the nearest part enclosing the container, which attachments scale about.
 */
module Traversal {
  import opened Options
  import opened Vectors
  import opened ScaleSpecifiers
  import opened Geometry
  import opened Instances
  import opened LeafRules

  /** The box an origin side is taken from: a size and a position. */
  datatype Anchor = Anchor(size: Vec3, position: Vec3)

  /** The outcome of origin resolution for a model or a tool. */
  datatype Resolution = Resolved(origin: Vec3) | MissingAnchor

  /** Origin resolution of `scaleModel` and `scaleTool`: an explicit point
      wins without consulting the anchor; otherwise the anchor is needed, and
      its side or position is used. */
  function ResolveOrigin(center: Center, anchor: Option<Anchor>): (r: Resolution)
    ensures center.AtPoint? ==> r == Resolved(center.point)
    ensures !center.AtPoint? ==> (r.MissingAnchor? <==> anchor.None?)
    ensures !center.AtPoint? && anchor.Some? && center.NoCenter? ==> r == Resolved(anchor.value.position)
    ensures !center.AtPoint? && anchor.Some? && center.AtSide? ==>
      r == Resolved(MinSide(anchor.value.size, anchor.value.position, center.side))
  {
    match center
    case AtPoint(p) => Resolved(p)
    case _ =>
      match anchor
      case None => MissingAnchor
      case Some(a) => Resolved(CenterToOrigin(center, a.size, a.position))
  }

  /** `enableWelds`: writes the saved flags back into the welds below the
      container and changes nothing else. */
  function EnableWelds(container: Instance, saved: seq<bool>): (r: Instance)
    requires |saved| == WeldCountList(container.children)
    ensures r.kind == container.kind
    ensures WeldFlagsList(r.children) == saved
    ensures SameOffWeldsList(container.children, r.children)
    ensures SkeletonList(r.children) == SkeletonList(container.children)
    ensures Size(r) == Size(container)
  {
    SetWeldsListFrame(container.children, saved);
    Instance(container.kind, SetWeldsList(container.children, saved))
  }

  /** `disableWelds`: saves the flags of the welds below the container and
      disables them all. Restoring the saved flags gives back the container. */
  function DisableWelds(container: Instance): (r: (seq<bool>, Instance))
    ensures r.0 == WeldFlagsList(container.children)
    ensures |WeldFlagsList(r.1.children)| == |r.0|
    ensures forall i :: 0 <= i < |WeldFlagsList(r.1.children)| ==> !WeldFlagsList(r.1.children)[i]
    ensures SkeletonList(r.1.children) == SkeletonList(container.children)
    ensures r.1.kind == container.kind && SameOffWeldsList(container.children, r.1.children)
    ensures EnableWelds(r.1, r.0) == container
    ensures Size(r.1) == Size(container)
  {
    var saved := WeldFlagsList(container.children);
    var disabled := EnableWelds(container, AllDisabled(|saved|));
    SetWeldsListTwice(container.children, AllDisabled(|saved|), saved);
    SetWeldsListOwnFlags(container.children);
    (saved, disabled)
  }

  /** `scaleDescendants`: the literal 1 changes nothing; any other scale
      rewrites every descendant once, as `Apply` does, and leaves the weld
      flags as they were, whether or not this call suspended them. */
  function ScaleDescendants(container: Instance, scale: ScaleInput, origin: Vec3, ancestor: Option<Vec3>, recur: bool): (r: Instance)
    ensures IsLiteralOne(scale) ==> r == container
    ensures !IsLiteralOne(scale) ==> r == Instance(container.kind, ApplyList(container.children, scale, origin, ancestor))
    decreases Size(container), 1
  {
    if IsLiteralOne(scale) then
      container
    else if recur then
      Instance(container.kind, ScaleChildren(container.children, scale, origin, ancestor))
    else
      var (saved, working) := DisableWelds(container);
      var processed := Instance(working.kind, ScaleChildren(working.children, scale, origin, ancestor));
      var cs := container.children;
      var disabled := AllDisabled(|saved|);
      ApplyListCommutesWithSetWelds(cs, disabled, scale, origin, ancestor);
      SetWeldsListTwice(ApplyList(cs, scale, origin, ancestor), disabled, saved);
      ApplyListCommutesWithSetWelds(cs, saved, scale, origin, ancestor);
      SetWeldsListOwnFlags(cs);
      EnableWelds(processed, saved)
  }

  /** The loop over the children of one container. */
  function ScaleChildren(children: seq<Instance>, scale: ScaleInput, origin: Vec3, ancestor: Option<Vec3>): (r: seq<Instance>)
    ensures !IsLiteralOne(scale) ==> r == ApplyList(children, scale, origin, ancestor)
    decreases SizeList(children), 4
  {
    if |children| == 0 then
      []
    else
      [ScaleChild(children[0], scale, origin, ancestor)] + ScaleChildren(children[1..], scale, origin, ancestor)
  }

  /** One child: parts, models and tools re-enter through their entry points
      with the container's origin as an explicit point; every other kind gets
      its rule and then its own children are walked without a new weld
      suspension. */
  function ScaleChild(child: Instance, scale: ScaleInput, origin: Vec3, ancestor: Option<Vec3>): (r: Instance)
    ensures !IsLiteralOne(scale) ==> r == Apply(child, scale, origin, ancestor)
    decreases Size(child), 3
  {
    match child.kind
    case PartNode(_) => ScalePart(child, scale, AtPoint(origin))
    case ModelNode => ScaleModel(child, scale, AtPoint(origin), None, ancestor)
    case ToolNode => ScaleTool(child, scale, AtPoint(origin), None, ancestor)
    case _ =>
      var scaled := Instance(Rule(child.kind, scale, origin, ancestor), child.children);
      ScaleDescendants(scaled, scale, origin, ancestor, true)
  }

  /** `scalePart`: the part itself is scaled about the resolved origin, then
      its descendants are walked with the same origin, attachments below it
      now scaling about its new position. */
  function ScalePart(part: Instance, scale: ScaleInput, center: Center): (r: Instance)
    requires part.kind.PartNode?
    ensures IsLiteralOne(scale) ==> r == part
    ensures !IsLiteralOne(scale) ==>
      r == Apply(part, scale, CenterToOrigin(center, part.kind.part.size, part.kind.part.position), None)
    decreases Size(part), 2
  {
    if IsLiteralOne(scale) then
      part
    else
      var p := part.kind.part;
      var origin := CenterToOrigin(center, p.size, p.position);
      var scaled := ScaleBasePart(p, scale, origin);
      ScaleDescendants(Instance(PartNode(scaled), part.children), scale, origin, Some(scaled.position), false)
  }

  /** `scaleModel`: resolves the origin from the explicit point, or from the
      model's anchor; without either it leaves the model as it is. */
  function ScaleModel(model: Instance, scale: ScaleInput, center: Center, primary: Option<Anchor>, ancestor: Option<Vec3>): (r: Instance)
    ensures IsLiteralOne(scale) || ResolveOrigin(center, primary).MissingAnchor? ==> r == model
    ensures !IsLiteralOne(scale) && ResolveOrigin(center, primary).Resolved? ==>
      r == Instance(model.kind, ApplyList(model.children, scale, ResolveOrigin(center, primary).origin, ancestor))
    decreases Size(model), 2
  {
    if IsLiteralOne(scale) then
      model
    else
      match ResolveOrigin(center, primary)
      case MissingAnchor => model
      case Resolved(origin) => ScaleDescendants(model, scale, origin, ancestor, false)
  }

  /** `scaleTool`: as `scaleModel`, the anchor being the tool's handle. */
  function ScaleTool(tool: Instance, scale: ScaleInput, center: Center, handle: Option<Anchor>, ancestor: Option<Vec3>): (r: Instance)
    ensures IsLiteralOne(scale) || ResolveOrigin(center, handle).MissingAnchor? ==> r == tool
    ensures !IsLiteralOne(scale) && ResolveOrigin(center, handle).Resolved? ==>
      r == Instance(tool.kind, ApplyList(tool.children, scale, ResolveOrigin(center, handle).origin, ancestor))
    decreases Size(tool), 2
  {
    if IsLiteralOne(scale) then
      tool
    else
      match ResolveOrigin(center, handle)
      case MissingAnchor => tool
      case Resolved(origin) => ScaleDescendants(tool, scale, origin, ancestor, false)
  }

  /** After a traversal every weld below the container has the flag it had
      before, whether the traversal suspended the welds itself or not. */
  lemma WeldsRestored(container: Instance, scale: ScaleInput, origin: Vec3, ancestor: Option<Vec3>, recur: bool)
    ensures WeldFlagsList(ScaleDescendants(container, scale, origin, ancestor, recur).children)
         == WeldFlagsList(container.children)
  {
  }

  /** A top-level traversal walks the children of the container with every
      weld below it disabled and nothing else changed, then writes the saved
      flags back. */
  lemma ChildrenProcessedWithWeldsDisabled(container: Instance, scale: ScaleInput, origin: Vec3, ancestor: Option<Vec3>)
    requires !IsLiteralOne(scale)
    ensures var (saved, working) := DisableWelds(container);
      && (forall i :: 0 <= i < |WeldFlagsList(working.children)| ==> !WeldFlagsList(working.children)[i])
      && SameOffWeldsList(container.children, working.children)
      && ScaleDescendants(container, scale, origin, ancestor, false)
         == EnableWelds(Instance(container.kind, ScaleChildren(working.children, scale, origin, ancestor)), saved)
  {
  }

  /** A traversal adds, removes and reorders no instance, and changes no
      kind. */
  lemma ShapePreserved(container: Instance, scale: ScaleInput, origin: Vec3, ancestor: Option<Vec3>, recur: bool)
    ensures Skeleton(ScaleDescendants(container, scale, origin, ancestor, recur)) == Skeleton(container)
  {
  }

  /** A nested model or tool receives its parent's origin as an explicit
      point, so the two branches agree and neither reads an anchor. */
  lemma NestedModelAndToolAgree(n: Instance, scale: ScaleInput, origin: Vec3, primary: Option<Anchor>, handle: Option<Anchor>, ancestor: Option<Vec3>)
    ensures ScaleModel(n, scale, AtPoint(origin), primary, ancestor) == ScaleTool(n, scale, AtPoint(origin), handle, ancestor)
    ensures ScaleModel(n, scale, AtPoint(origin), primary, ancestor) == ScaleModel(n, scale, AtPoint(origin), None, ancestor)
  {
  }

  /** A model without an explicit point and without an anchor is skipped,
      whatever its descendants. */
  lemma MissingAnchorSkips(model: Instance, scale: ScaleInput, side: NormalId, ancestor: Option<Vec3>)
    ensures ScaleModel(model, scale, NoCenter, None, ancestor) == model
    ensures ScaleModel(model, scale, AtSide(side), None, ancestor) == model
  {
  }

  /** Every point light below the container keeps its range: the
      traversal has no branch for point lights. */
  lemma PointLightNotScaled(container: Instance, scale: ScaleInput, origin: Vec3, ancestor: Option<Vec3>, recur: bool)
    ensures PointLightsList(ScaleDescendants(container, scale, origin, ancestor, recur).children)
         == PointLightsList(container.children)
  {
    ApplyListKeepsPointLights(container.children, scale, origin, ancestor);
  }

  /** The engine moves an attachment along with its part; this model does
      not. A part at (1, 0, 0) with an attachment at its centre, scaled by 2
      about the zero point, moves to (2, 0, 0), while the attachment ends at
      the zero point rather than at the part's new centre. */
  lemma AttachmentLagsItsPart()
    ensures ScalePart(Instance(PartNode(Part(One, Vec3(1.0, 0.0, 0.0), Rotation([]))), [Instance(AttachmentNode(Attachment(Vec3(1.0, 0.0, 0.0))), [])]), Number(2.0), AtPoint(Zero))
         == Instance(PartNode(Part(Vec3(2.0, 2.0, 2.0), Vec3(2.0, 0.0, 0.0), Rotation([]))), [Instance(AttachmentNode(Attachment(Zero)), [])])
  {
    var part := Instance(PartNode(Part(One, Vec3(1.0, 0.0, 0.0), Rotation([]))), [Instance(AttachmentNode(Attachment(Vec3(1.0, 0.0, 0.0))), [])]);
    SinglePartAboutPoint(part, Number(2.0), Zero);
    DoubledPartExample();
    DoubledAttachmentExample();
  }

  /** A part with one child, scaled about an explicit point: the part's rule,
      then the child's rewrite about the part's new position. */
  lemma SinglePartAboutPoint(part: Instance, scale: ScaleInput, origin: Vec3)
    requires part.kind.PartNode? && |part.children| == 1 && !IsLiteralOne(scale)
    ensures var k := Rule(part.kind, scale, origin, None);
      ScalePart(part, scale, AtPoint(origin))
      == Instance(k, [Apply(part.children[0], scale, origin, Enclosing(k, None))])
  {
    var k := Rule(part.kind, scale, origin, None);
    assert CenterToOrigin(AtPoint(origin), part.kind.part.size, part.kind.part.position) == origin;
    assert ScalePart(part, scale, AtPoint(origin)) == Apply(part, scale, origin, None);
    assert ApplyList(part.children, scale, origin, Enclosing(k, None))[0] == Apply(part.children[0], scale, origin, Enclosing(k, None));
  }

  /** The part of that example, doubled about the zero point. */
  lemma DoubledPartExample()
    ensures Rule(PartNode(Part(One, Vec3(1.0, 0.0, 0.0), Rotation([]))), Number(2.0), Zero, None)
         == PartNode(Part(Vec3(2.0, 2.0, 2.0), Vec3(2.0, 0.0, 0.0), Rotation([])))
  {
  }

  /** Its attachment, doubled about the part's new centre. */
  lemma DoubledAttachmentExample()
    ensures Apply(Instance(AttachmentNode(Attachment(Vec3(1.0, 0.0, 0.0))), []), Number(2.0), Zero, Some(Vec3(2.0, 0.0, 0.0)))
         == Instance(AttachmentNode(Attachment(Zero)), [])
  {
    assert ScaleAttachment(Attachment(Vec3(1.0, 0.0, 0.0)), Number(2.0), Some(Vec3(2.0, 0.0, 0.0))) == Attachment(Zero);
  }

  /** A top-level part scale leaves every weld of the part's tree with the
      flag it had, the part's own nested suspensions included. */
  lemma PartWeldsRestored(part: Instance, scale: ScaleInput, center: Center)
    requires part.kind.PartNode?
    ensures WeldFlags(ScalePart(part, scale, center)) == WeldFlags(part)
    ensures Skeleton(ScalePart(part, scale, center)) == Skeleton(part)
  {
  }

  /** Under a scale whose views are all 1 (a unit Vector2 or Vector3, say),
      a traversal changes nothing as long as every fire has an integral
      size; with the literal 1 it changes nothing at all. */
  lemma UnitTraversalIsIdentity(container: Instance, scale: ScaleInput, origin: Vec3, ancestor: Option<Vec3>, recur: bool)
    requires UnitViews(Specify(scale))
    requires IntegralFiresList(container.children)
    ensures ScaleDescendants(container, scale, origin, ancestor, recur) == container
  {
    UnitApplyListIsIdentity(container.children, scale, origin, ancestor);
  }

  /** Composition law: on a tree without fires and attachments, scaling by
      the number `a` and then by `b` about the same origin equals one scale
      by `a * b`, the literal-1 short-circuits included. */
  lemma TraversalComposes(container: Instance, a: real, b: real, origin: Vec3, ancestor: Option<Vec3>)
    requires ComposableList(container.children)
    ensures ScaleDescendants(ScaleDescendants(container, Number(a), origin, ancestor, false), Number(b), origin, ancestor, false)
         == ScaleDescendants(container, Number(a * b), origin, ancestor, false)
  {
    if a == 1.0 {
      assert a * b == b;
    } else if b == 1.0 {
      assert a * b == a;
    } else {
      ComposesWithoutShortCircuit(container, a, b, origin, ancestor);
    }
  }

  lemma ComposesWithoutShortCircuit(container: Instance, a: real, b: real, origin: Vec3, ancestor: Option<Vec3>)
    requires ComposableList(container.children)
    requires a != 1.0 && b != 1.0
    ensures ScaleDescendants(ScaleDescendants(container, Number(a), origin, ancestor, false), Number(b), origin, ancestor, false)
         == ScaleDescendants(container, Number(a * b), origin, ancestor, false)
  {
    var cs := container.children;
    assert !IsLiteralOne(Number(a)) && !IsLiteralOne(Number(b));
    var first := ScaleDescendants(container, Number(a), origin, ancestor, false);
    assert first.children == ApplyList(cs, Number(a), origin, ancestor);
    var second := ScaleDescendants(first, Number(b), origin, ancestor, false);
    assert second == Instance(container.kind, ApplyList(first.children, Number(b), origin, ancestor));
    ApplyListComposes(cs, a, b, origin, ancestor, ancestor, ancestor);
    assert second == Instance(container.kind, ApplyList(cs, Number(a * b), origin, ancestor));
    if a * b == 1.0 {
      ComposableUnitRewrite(cs, origin, ancestor);
    } else {
      assert !IsLiteralOne(Number(a * b));
    }
  }

  lemma ComposableUnitRewrite(cs: seq<Instance>, origin: Vec3, ancestor: Option<Vec3>)
    requires ComposableList(cs)
    ensures ApplyList(cs, Number(1.0), origin, ancestor) == cs
  {
    ComposableHasIntegralFires(cs);
    UnitInputsHaveUnitViews(Number(1.0));
    UnitApplyListIsIdentity(cs, Number(1.0), origin, ancestor);
  }
}
