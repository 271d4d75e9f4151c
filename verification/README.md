# Scale-model engine in Dafny

A model of the scaling engine of `@rbxts/scale-model` (`src/index.ts`), a
library that resizes a subtree of a Roblox scene (a Model, a Part or a Tool
and all its descendants) about an origin point. The engine's value types
become plain datatypes: vectors are triples of `real`, and the instance tree
is a finite tree whose nodes carry a closed kind tag. All operations are pure
functions that return the rewritten tree.

The project has four parts, one or two modules each:

- **Scale-input normaliser** (`scale_specifier.dfy`, module `ScaleSpecifiers`):
  `ScaleInput` is the polymorphic argument (number, Vector2, Vector3 or an
  existing specifier); `Specify` is the `ScaleSpecifier` constructor with its
  four shape flags and three views; `Average` is `averageNumbers`.
- **Pure geometry** (`geometry.dfy`, module `Geometry`): `Lerp`
  (`lerpVector`), `ScaleVector`, `CenterToOrigin`, `MinSide` and
  `ScaleNumberSequence`.
- **Per-instance rules** (`leaf_rules.dfy`, module `LeafRules`): one function
  per rule of the source, `Rule` for the dispatch table, and `Apply`, a
  single-pass reference semantics that rewrites every instance of a tree
  once.
- **Traversal** (`traversal.dfy`, module `Traversal`): `ScaleDescendants`
  with its child loop, the entry points `ScalePart`, `ScaleModel` and
  `ScaleTool`, and weld suspension through `DisableWelds` and `EnableWelds`.
  `ScaleDescendants`, `ScaleChildren`, `ScaleChild`, `ScalePart`,
  `ScaleModel` and `ScaleTool` are proved equal to `Apply`. From that it
  follows that every descendant is handled exactly once, and that the weld
  flags after a call are the flags from before it. Nested suspensions started by parts, models
  and tools inside the walk do not change this.

`vectors.dfy` holds the vector types and `options.dfy` the `Option` type. `instances.dfy` holds the
instance tree, and the weld flags of a tree read and written as one preorder
list.

Modelling choices:

- The source keeps the saved weld flags in a `Map` keyed by the weld object.
  Here they are a list in preorder. The traversal never adds, removes or
  reorders instances (`Traversal.ShapePreserved`), so a weld's position in
  that list names the same weld before and after scaling.
- The engine queries become inputs. `ScaleModel` takes the model's
  extents size and its primary part's position as an optional `Anchor`.
  `ScaleTool` takes its handle's size and position the same way.
  Attachments scale about the position of the nearest enclosing part: the
  traversal passes it down as `ancestor`. Below a part this is the part's
  position after it was scaled, because `scalePart` scales the part before
  its descendants.
- Nested models and tools receive the parent's origin as an explicit point.
  So inside a traversal they never read their anchor
  (`Traversal.NestedModelAndToolAgree`).
- Only the literal number 1 short-circuits (`ScaleSpecifiers.IsLiteralOne`).
  A unit Vector2 or Vector3 walks the tree. It changes nothing except
  fires, whose sizes are rounded down (`LeafRules.FireBreaksUnitIdentity`,
  `Traversal.UnitTraversalIsIdentity`).
- A specifier wrapped in another specifier keeps its views but has
  `isScaleSpec` set and `isVector3` clear. So part sizes, explosion positions
  and the centre-less `scaleVector` treat it as uniform by its mean
  (`ScaleSpecifiers.WrappedVector3SizesUniformly`).
- `scalePointLight` exists, but the traversal has no branch for point lights.
  They are walked as plain containers (`Traversal.PointLightNotScaled`).

Facts about the code that the model keeps:

- Nested models and tools do not resolve their own origin: the dispatch
  passes them the container's origin as an explicit point
  (src/index.ts:226, 231), so their anchor is never read.
- The identity short-circuit is `scale === 1`, which only the number 1
  meets (src/index.ts:80, 104, 139, 158, 174, 215). A unit Vector2 or
  Vector3 goes through the whole walk.
- Weld suspension covers every weld found by `GetDescendants`
  (src/index.ts:193), not only the container's direct children.
- Fire sizes are rounded down at every scale (src/index.ts:266), so two fire
  scales do not compose (`LeafRules.FireScalesDoNotCompose`). On trees
  without fires and attachments two number scales compose
  (`Traversal.TraversalComposes`).

## Model

| member | source | states |
|---|---|---|
| ScaleSpecifiers.Average | src/index.ts:11-17 | the empty list averages to 0; otherwise the result times the count is the sum |
| ScaleSpecifiers.AverageWithinBounds | src/index.ts:11-17 | the mean of a non-empty list lies between any lower and upper bound of its elements |
| ScaleSpecifiers.AverageOfConstant | src/index.ts:11-17 | the mean of a list of equal numbers is that number |
| ScaleSpecifiers.Specify | src/index.ts:28-60 | exactly one shape flag is set, and it matches the input's shape; a number is copied to every axis; a Vector2 keeps its axes and gets their mean as scalar view; a Vector3 is its own 3D view; a wrapped specifier's views are copied; the views of a raw input are coherent (2D view = first two axes of the 3D view, scalar view = mean of the 3D view), and wrapping keeps coherence |
| ScaleSpecifiers.RawInputRoundTrip | src/index.ts:35-52 | a number, Vector2 or Vector3 is read back unchanged from the view of its own shape, and the three views are coherent |
| ScaleSpecifiers.WrappingKeepsViews | src/index.ts:53-59 | wrapping a specifier once or twice leaves its views unchanged, but the wrapper is flagged as a specifier and not as a Vector3 |
| ScaleSpecifiers.WrappedVector3SizesUniformly | src/index.ts:29-59 | the Vector3 (2,1,1) gives size factors (2,1,1), but the same specifier wrapped once gives 4/3 on every axis |
| ScaleSpecifiers.UnitInputsHaveUnitViews | src/index.ts:35-52 | the number 1, the Vector2 (1,1) and the Vector3 (1,1,1) all give views that are 1 everywhere |
| ScaleSpecifiers.IsLiteralOne | src/index.ts:214-217 | the short-circuit `scale === 1`: when it holds, the input is a number and all its views are 1 (the same test guards lines 80, 104, 139, 158 and 174); unit vectors have unit views too but do not take it |
| ScaleSpecifiers.SizeFactors | src/index.ts:329-330 | the size factors of a specifier with unit views are 1 on every axis |
| ScaleSpecifiers.SizeFactorsFollowShape | src/index.ts:329-330 | sizes follow a raw Vector3 axis by axis and every other input by its scalar view |
| ScaleSpecifiers.SizeFactorsByInput | src/index.ts:28-60 | a number n gives n on every axis, a Vector2 the mean of its axes on every axis, a Vector3 itself, a wrapped specifier its scalar view on every axis |
| ScaleSpecifiers.SizeFactorsMeanIsScalar | src/index.ts:329-330 | for a coherent specifier the three size factors average to the scalar view, whichever branch is taken |
| Geometry.Lerp | src/index.ts:112-130 | the result's displacement from the centre is the input's displacement multiplied axis by axis by the 3D view |
| Geometry.CenterIsFixed | src/index.ts:112-130 | the centre is a fixed point of every scale |
| Geometry.UnitLerpIsIdentity | src/index.ts:112-130 | a 3D view of (1,1,1) returns every point unchanged |
| Geometry.LerpComposes | src/index.ts:112-130 | scaling by a and then b about one centre equals scaling once by the component-wise product of their 3D views |
| Geometry.NumberScalesCompose | src/index.ts:112-130 | two number scales a and b about one centre compose into the number a*b |
| Geometry.LerpInverse | src/index.ts:112-130 | scaling by a non-zero number and then by its reciprocal returns every point |
| Geometry.ScaleVector | src/index.ts:138-150 | with a centre, the displacement from it is scaled by the 3D view, and the literal 1 agrees with this; without a centre, a raw Vector3 multiplies axis by axis and every other input (Vector2 and wrapped specifiers too) multiplies by the scalar view |
| Geometry.ScaleVectorUnit | src/index.ts:138-150 | the number 1 and the unit Vector2 and Vector3 return the vector unchanged, with or without a centre |
| Geometry.NoCenterIsZeroCenter | src/index.ts:143-149 | for a number or a Vector3, no centre is the same as the zero point as centre |
| Geometry.Vector2WithoutCenterIsUniform | src/index.ts:146-148 | without a centre the Vector2 (2,4) scales (1,1,1) uniformly by the mean 3 |
| Geometry.Vector2AboutCenterIsPerAxis | src/index.ts:143-144 | about the zero point the Vector2 (2,4) sends (1,1,1) to (2,4,3) |
| Geometry.ScaleVectorComposes | src/index.ts:138-150 | scaling a vector about one centre by a and then b equals one scale by a*b |
| Geometry.MinSideMovesOneAxis | src/index.ts:299-322 | each side moves exactly one coordinate by half the size on that axis: Front, Left and Bottom subtract, Back, Right and Top add |
| Geometry.OppositeFacesAreSymmetric | src/index.ts:299-322 | opposite faces sum to twice the position, so the position is their midpoint |
| Geometry.MinSide | src/index.ts:299-322 | the chosen side is the position moved by half the size along that face's outward normal |
| Geometry.CenterToOrigin | src/index.ts:285-297 | an explicit point wins, else a side gives that face of the box, else the position |
| Geometry.TopFaceExample | src/index.ts:285-322 | a box of size (4,2,6) at the zero point has its top face at (0,1,0) |
| Geometry.LeftFaceExample | src/index.ts:285-322 | the same box has its left face at (-2,0,0) |
| Geometry.ScaleNumberSequence | src/index.ts:273-278 | same number of keypoints, each keeping its time in the same order, with value and envelope multiplied by the scalar view |
| Geometry.ScaleNumberSequenceKeepsTimes | src/index.ts:273-278 | the list of keypoint times is unchanged |
| Geometry.ScaleNumberSequenceComposes | src/index.ts:273-278 | rescaling by a and then b equals rescaling once by a*b |
| Geometry.NumberSequenceExample | src/index.ts:273-278 | [(0,1,0),(1,2,0)] scaled by 2 is [(0,2,0),(1,4,0)] |
| Instances.SetWeldsListFrame | src/index.ts:203-207 | writing weld flags changes nothing else: welds stay where they are and every other instance keeps its kind and properties |
| Instances.OnlyWeldsDifferList | src/index.ts:203-207 | a list of trees that differs from another only in weld flags is that list with those flags written in, so the frame and the new flags determine a write |
| Instances.SetWeldsListOwnFlags | src/index.ts:203-207 | writing back the flags a tree already has changes nothing |
| Instances.SetWeldsListTwice | src/index.ts:203-207 | of two writes of the weld flags only the second is visible |
| LeafRules.ScaleBasePart | src/index.ts:324-332 | the rotation is kept; the displacement of the position from the origin is scaled by the 3D view; the size is multiplied axis by axis by a raw Vector3 and otherwise by the scalar view |
| LeafRules.ScaleAttachment | src/index.ts:334-339 | with no enclosing part nothing changes; otherwise the world position's displacement from that part is scaled by the 3D view |
| LeafRules.ScaleMesh | src/index.ts:261-263 | every axis of the mesh scale is multiplied by the scalar view only |
| LeafRules.ScaleFire | src/index.ts:265-267 | the new size is an integer, at most the scaled size and more than the scaled size minus 1 |
| LeafRules.ScaleTexture | src/index.ts:253-259 | both U fields follow the first axis of the 2D view, both V fields its second |
| LeafRules.ScaleExplosion | src/index.ts:157-165 | the literal 1 changes nothing; the position is scaled as the centre-less scaleVector does; blast pressure and radius are multiplied by the scalar view |
| LeafRules.ScaleParticle | src/index.ts:269-271 | the size curve keeps its length and its keypoint times |
| LeafRules.ScalePointLight | src/index.ts:280-283 | the range is multiplied by the scalar view |
| LeafRules.Rule | src/index.ts:222-243 | the dispatch keeps each instance's kind; models, tools, point lights, welds and other instances are not changed themselves; the traversal applies it once per instance (`Traversal.ScaleChild`) |
| LeafRules.ApplyListKeepsPointLights | src/index.ts:222-243 | the rewrite has no branch for point lights: every point light of a tree keeps its range, in order |
| LeafRules.Apply | src/index.ts:219-247 | the single-pass reference rewrite leaves the tree's shape and every weld flag unchanged |
| LeafRules.ApplyListCommutesWithSetWelds | src/index.ts:191-207 | scaling never reads weld flags: writing flags before or after it gives the same tree |
| LeafRules.UnitRuleIsIdentity | src/index.ts:222-243 | under views that are all 1, every rule keeps its instance, except a fire with a fractional size |
| LeafRules.UnitApplyListIsIdentity | src/index.ts:219-247 | under views that are all 1, a whole tree whose fires have integral sizes is unchanged |
| LeafRules.FireBreaksUnitIdentity | src/index.ts:265-267 | the unit Vector3 turns a fire of size 2.5 into size 2 |
| LeafRules.FireExample | src/index.ts:265-267 | size 5 scaled by 1.3 becomes 6 |
| LeafRules.FireScalesDoNotCompose | src/index.ts:265-267 | size 1 scaled by 0.5 and then 2 becomes 0, but scaled once by 1 stays 1 |
| LeafRules.PartNumberScalesCompose | src/index.ts:324-332 | number scales a and then b of a part about one origin equal one scale by a*b |
| LeafRules.PartVector3ScalesCompose | src/index.ts:324-332 | Vector3 scales f and then g of a part about one origin equal one scale by their component-wise product |
| LeafRules.PartScaleInverse | src/index.ts:324-332 | scaling a part by a non-zero number and then its reciprocal restores it |
| LeafRules.MeshScalesCompose | src/index.ts:261-263 | mesh scales a and then b equal one scale by a*b |
| LeafRules.ExplosionScalesCompose | src/index.ts:157-165 | explosion scales a and then b equal one scale by a*b |
| LeafRules.PointLightScalesCompose | src/index.ts:280-283 | point-light scales a and then b equal one scale by a*b |
| LeafRules.RuleComposes | src/index.ts:222-243 | for every kind except fires and attachments, the rule for a followed by the rule for b is the rule for a*b |
| LeafRules.ApplyListComposes | src/index.ts:219-247 | on a tree without fires and attachments, the reference rewrite for a followed by that for b is the one for a*b |
| LeafRules.TextureScalesCompose | src/index.ts:253-259 | texture scales by the Vector2s f and then g equal one scale by their component-wise product |
| Traversal.ResolveOrigin | src/index.ts:83-93 | an explicit point wins without reading the anchor; otherwise resolution fails exactly when the anchor is missing, and gives the anchor's position or the chosen face of its box |
| Traversal.DisableWelds | src/index.ts:191-201 | the saved flags are those of the welds below the container; afterwards all of them are disabled and every other instance keeps its kind and properties; restoring the saved flags gives back the container |
| Traversal.EnableWelds | src/index.ts:203-207 | the welds below the container get exactly the given flags, and every other instance keeps its kind and properties |
| Traversal.ScaleDescendants | src/index.ts:214-251 | the literal 1 changes nothing; any other scale gives the reference rewrite of every descendant, with weld flags as before, whether or not this call suspended them |
| Traversal.ScaleChildren | src/index.ts:219-247 | the loop over the children gives the reference rewrite of each child |
| Traversal.ScaleChild | src/index.ts:221-246 | each child, whichever branch takes it, ends up rewritten exactly once, as the reference does |
| Traversal.ScalePart | src/index.ts:103-110 | the literal 1 changes nothing; otherwise the part and all its descendants are rewritten once about the origin resolved from the part's own box |
| Traversal.ScaleModel | src/index.ts:79-95 | the literal 1 or an unresolvable origin leaves the model unchanged; otherwise every descendant is rewritten once about the resolved origin |
| Traversal.ScaleTool | src/index.ts:173-189 | as for the model, with the handle as anchor |
| Traversal.ChildrenProcessedWithWeldsDisabled | src/index.ts:218-250 | a top-level traversal walks the children with every weld below the container disabled and nothing else changed, then writes the saved flags back |
| Traversal.WeldsRestored | src/index.ts:218-250 | after a traversal every weld below the container has the flag it had before |
| Traversal.ShapePreserved | src/index.ts:214-251 | a traversal adds, removes and reorders no instance and changes no kind |
| Traversal.PartWeldsRestored | src/index.ts:103-110 | a part scale keeps every weld flag and the shape of the part's tree |
| Traversal.NestedModelAndToolAgree | src/index.ts:225-232 | with an explicit point, the model and tool branches give the same tree and ignore the anchor |
| Traversal.MissingAnchorSkips | src/index.ts:86-91 | a model with no explicit point and no anchor is left unchanged |
| Traversal.PointLightNotScaled | src/index.ts:214-251 | every point light below the container, at any depth, keeps its range |
| Traversal.AttachmentLagsItsPart | src/index.ts:324-339 | a part at (1,0,0) with an attachment at its centre, scaled by 2 about the zero point, moves to (2,0,0) while its attachment ends at the zero point |
| Traversal.TraversalComposes | src/index.ts:214-251 | composition law: on a tree without fires and attachments, a traversal by a and then by b about one origin equals one traversal by a*b, whichever of a, b and a*b is the literal 1 |
| Traversal.UnitTraversalIsIdentity | src/index.ts:214-251 | under views that are all 1, a traversal of a tree whose fires have integral sizes changes nothing |

## Left out

- The engine's coordinate-frame algebra: a part's rotation is an opaque value carried unchanged, and its frame is rebuilt from the new position and that rotation.
- The engine's class hierarchy: a closed kind per instance replaces `IsA`. The first-match order of the dispatch therefore never decides between two branches.
- `GetExtentsSize`, `PrimaryPart`, `FindFirstChild('Handle')` and `FindFirstAncestorWhichIsA('BasePart')`: their results are inputs (`Anchor`, `ancestor`).
- The engine's link between an attachment's world position and its parent part: in the engine, setting `part.CFrame` (src/index.ts:331) carries the part's attachments along, and `_scaleAttachment` then scales each attachment's offset from the part. Here moving a part does not move its attachments; only the attachment rule does. So a part at (1,0,0) with an attachment at its centre, scaled by 2 about the zero point, moves to (2,0,0) while the attachment ends at the zero point instead of the part's centre (`Traversal.AttachmentLagsItsPart`). For the same reason the composition law is stated only for trees without attachments, although in the engine attachment scales compose.
- Weld physics: in the engine an enabled weld drags the parts it joins along when a part's frame is set, which is why welds are suspended during scaling. Here no rule reads a weld flag (`LeafRules.ApplyListCommutesWithSetWelds`), so suspension shows only in the flags (`Traversal.ChildrenProcessedWithWeldsDisabled`) and changes no scaled value. In particular, `scalePart` moves the part (src/index.ts:108) before its descendants' welds are disabled (src/index.ts:109, 218); that order has no consequence in this model.
- The `print` diagnostics of a model or tool without an anchor: the model returns the instance unchanged.
- Floating-point rounding: all arithmetic is over `real`, so the composition laws hold exactly.
- Runtime shape checks (`typeOf`, `typeIs`): the scale and centre arguments are datatypes, so a value of any other shape cannot occur.
- `_minSide` called without a side, and side values outside the six faces: the only caller passes one of the six, which a closed `NormalId` enumerates.
- The unused origin parameters: `_origin` of `scaleMesh`, `scaleFire` and `_scaleAttachment`, and `origin` of `scaleTexture`. `LeafRules.ScaleAttachment` takes the enclosing part's position (`ancestor`) instead.
- The `asScaleSpec` field: nothing in the library reads it.
- Mutation in place: the model returns new trees instead of writing the engine's instances.
- LeafRules.ScaleParticle: its own contract states only length and times; the values and envelopes are stated by `Geometry.ScaleNumberSequence`, which it returns.
