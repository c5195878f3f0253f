/** The shading state each draw of one RenderScene pass sees, object by
    object in submission order. Lighting, material, colour-or-texture and UV
    scale are latched: an object that does not set one of them sees the
    value the previous object left. */
module ScenePlan {
  import opened GlTypes
  import opened TextureRegistry
  import opened Shading

  const Lit: Option<Uniform> := Some(Flag(true))
  const Unlit: Option<Uniform> := Some(Flag(false))
  const UnitUV: Option<Uniform> := Some(Vec2V(Vec2(1.0, 1.0)))
  const Red: Vec4 := Vec4(1.0, 0.0, 0.0, 1.0)
  const KeyGrey: Vec4 := Vec4(0.83, 0.83, 0.83, 1.0)
  const KeyScale: Vec3 := Vec3(0.8, 0.2, 0.8)

  /** Desk plane and back wall; lighting is switched on before the desk. */
  function DeskPlan(mat: MaterialView): seq<Expect>
  {
    [ Expect(Plane, Lit, TextureCall("desk"), UnitUV, mat),
      Expect(Plane, Lit, TextureCall("wall"), UnitUV, mat) ]
  }

  /** Mug body, red cavity (flat colour, UV scale inherited), foam top
      (lighting switched off) and handle (lighting still off). */
  function CupPlan(lighting: Option<Uniform>, mat: MaterialView): seq<Expect>
  {
    [ Expect(Cylinder, lighting, TextureCall("matteBlack"), UnitUV, mat),
      Expect(Cylinder, lighting, ColorCall(Red), UnitUV, mat),
      Expect(Cylinder, Unlit, TextureCall("foam"), UnitUV, mat),
      Expect(Torus, Unlit, TextureCall("matteBlack"), UnitUV, mat) ]
  }

  /** A row of `k` grey keys, each inheriting lighting, UV scale and material. */
  function KeyRowPlan(k: nat, lighting: Option<Uniform>, uv: Option<Uniform>, mat: MaterialView): (plan: seq<Expect>)
    ensures |plan| == k
    ensures forall i :: 0 <= i < k ==> plan[i] == Expect(Box, lighting, ColorCall(KeyGrey), uv, mat)
  {
    seq(k, i => Expect(Box, lighting, ColorCall(KeyGrey), uv, mat))
  }

  /** Keyboard base, then the rows of 7, 9 and 10 keys. */
  function KeyboardPlan(lighting: Option<Uniform>, mat: MaterialView): seq<Expect>
  {
    [Expect(Box, lighting, TextureCall("matteBlack"), UnitUV, mat)]
      + KeyRowPlan(7, lighting, UnitUV, mat)
      + KeyRowPlan(9, lighting, UnitUV, mat)
      + KeyRowPlan(10, lighting, UnitUV, mat)
  }

  function PyramidPlan(lighting: Option<Uniform>, mat: MaterialView): seq<Expect>
  {
    [Expect(Pyramid4, lighting, TextureCall("pyramid"), UnitUV, mat)]
  }

  /** Monitor base, stand, arm, bezel, and the screen, which sets no UV
      scale of its own. */
  function ComputerPlan(lighting: Option<Uniform>, mat: MaterialView): seq<Expect>
  {
    [ Expect(Plane, lighting, TextureCall("matteBlack"), UnitUV, mat),
      Expect(Box, lighting, TextureCall("matteBlack"), UnitUV, mat),
      Expect(Box, lighting, TextureCall("matteBlack"), UnitUV, mat),
      Expect(Box, lighting, TextureCall("matteBlack"), UnitUV, mat),
      Expect(Plane, lighting, TextureCall("screen"), UnitUV, mat) ]
  }

  /** The whole pass, given the material view left by the one material call. */
  function FramePlan(mat: MaterialView): seq<Expect>
  {
    DeskPlan(mat) + CupPlan(Lit, mat) + KeyboardPlan(Unlit, mat) + PyramidPlan(Unlit, mat) + ComputerPlan(Unlit, mat)
  }

  /** The draws before the keys: desk, wall, the four mug parts, keyboard base. */
  function HeadPlan(mat: MaterialView): seq<Expect>
  {
    DeskPlan(mat) + CupPlan(Lit, mat) + [Expect(Box, Unlit, TextureCall("matteBlack"), UnitUV, mat)]
  }

  /** The draws after the keys: pyramid and the five monitor parts. */
  function TailPlan(mat: MaterialView): seq<Expect>
  {
    PyramidPlan(Unlit, mat) + ComputerPlan(Unlit, mat)
  }

  lemma KeyboardParts(lighting: Option<Uniform>, mat: MaterialView)
    ensures |KeyboardPlan(lighting, mat)| == 27
    ensures KeyboardPlan(lighting, mat)[0] == Expect(Box, lighting, TextureCall("matteBlack"), UnitUV, mat)
    ensures forall i :: 1 <= i < 27 ==> KeyboardPlan(lighting, mat)[i] == Expect(Box, lighting, ColorCall(KeyGrey), UnitUV, mat)
  {
    var base := [Expect(Box, lighting, TextureCall("matteBlack"), UnitUV, mat)];
    var r7, r9, r10 := KeyRowPlan(7, lighting, UnitUV, mat), KeyRowPlan(9, lighting, UnitUV, mat), KeyRowPlan(10, lighting, UnitUV, mat);
    var k := KeyboardPlan(lighting, mat);
    assert k == base + r7 + r9 + r10;
    forall i | 1 <= i < 27 ensures k[i] == Expect(Box, lighting, ColorCall(KeyGrey), UnitUV, mat) {
      if i < 8 {
        assert k[i] == r7[i - 1];
      } else if i < 17 {
        assert k[i] == r9[i - 8];
      } else {
        assert k[i] == r10[i - 17];
      }
    }
  }

  /** The first seven draws of the pass are the head plan. */
  lemma FrameHead(mat: MaterialView)
    ensures |FramePlan(mat)| == 39
    ensures forall i :: 0 <= i < 7 ==> FramePlan(mat)[i] == HeadPlan(mat)[i]
  {
    KeyboardParts(Unlit, mat);
    var dc := DeskPlan(mat) + CupPlan(Lit, mat);
    var k := KeyboardPlan(Unlit, mat);
    var f := FramePlan(mat);
    assert f == dc + k + PyramidPlan(Unlit, mat) + ComputerPlan(Unlit, mat);
    assert HeadPlan(mat) == dc + [k[0]];
  }

  /** Draws 7 to 32 of the pass are the grey keys. */
  lemma FrameKeys(mat: MaterialView)
    ensures |FramePlan(mat)| == 39
    ensures forall i :: 7 <= i < 33 ==> FramePlan(mat)[i] == Expect(Box, Unlit, ColorCall(KeyGrey), UnitUV, mat)
  {
    KeyboardParts(Unlit, mat);
    var dc := DeskPlan(mat) + CupPlan(Lit, mat);
    var k := KeyboardPlan(Unlit, mat);
    var f := FramePlan(mat);
    assert f == dc + k + PyramidPlan(Unlit, mat) + ComputerPlan(Unlit, mat);
    forall i | 7 <= i < 33 ensures f[i] == k[i - 6] {
    }
  }

  /** The last six draws of the pass are the tail plan. */
  lemma FrameTail(mat: MaterialView)
    ensures |FramePlan(mat)| == 39
    ensures forall i :: 33 <= i < 39 ==> FramePlan(mat)[i] == TailPlan(mat)[i - 33]
  {
    KeyboardParts(Unlit, mat);
    var head := DeskPlan(mat) + CupPlan(Lit, mat) + KeyboardPlan(Unlit, mat);
    var f := FramePlan(mat);
    assert f == head + TailPlan(mat);
  }

  lemma HeadFacts(mat: MaterialView)
    ensures |HeadPlan(mat)| == 7
    ensures forall i :: 0 <= i < 7 ==>
      && HeadPlan(mat)[i].lighting == (if i < 4 then Lit else Unlit)
      && HeadPlan(mat)[i].uvScale == UnitUV
      && HeadPlan(mat)[i].material == mat
      && (HeadPlan(mat)[i].call.TextureCall? <==> i != 3)
    ensures HeadPlan(mat)[3].call == ColorCall(Red)
  {
    var h := HeadPlan(mat);
    var mb := TextureCall("matteBlack");
    assert h == [ Expect(Plane, Lit, TextureCall("desk"), UnitUV, mat),
                  Expect(Plane, Lit, TextureCall("wall"), UnitUV, mat),
                  Expect(Cylinder, Lit, mb, UnitUV, mat),
                  Expect(Cylinder, Lit, ColorCall(Red), UnitUV, mat),
                  Expect(Cylinder, Unlit, TextureCall("foam"), UnitUV, mat),
                  Expect(Torus, Unlit, mb, UnitUV, mat),
                  Expect(Box, Unlit, mb, UnitUV, mat) ];
  }

  lemma TailFacts(mat: MaterialView)
    ensures |TailPlan(mat)| == 6
    ensures forall i :: 0 <= i < 6 ==>
      && TailPlan(mat)[i].lighting == Unlit
      && TailPlan(mat)[i].uvScale == UnitUV
      && TailPlan(mat)[i].material == mat
      && TailPlan(mat)[i].call.TextureCall?
    ensures TailPlan(mat)[5] == Expect(Plane, Unlit, TextureCall("screen"), UnitUV, mat)
  {
  }

  /** The latching facts of one pass: 39 draws; lighting on for the first
      four and off from the foam top (draw 4) to the end; every draw sees the
      unit UV scale, the screen included, and the same material; draws 7 to
      32 are the grey keys and draw 3 the red cavity, all other draws are
      textured. */
  lemma FrameLatches(mat: MaterialView)
    ensures |FramePlan(mat)| == 39
    ensures forall i :: 0 <= i < 39 ==> FramePlan(mat)[i].lighting == if i < 4 then Lit else Unlit
    ensures forall i :: 0 <= i < 39 ==> FramePlan(mat)[i].uvScale == UnitUV && FramePlan(mat)[i].material == mat
    ensures forall i :: 7 <= i < 33 ==> FramePlan(mat)[i].mesh == Box && FramePlan(mat)[i].call == ColorCall(KeyGrey)
    ensures FramePlan(mat)[3].call == ColorCall(Red)
    ensures forall i :: 0 <= i < 39 && i != 3 && !(7 <= i < 33) ==> FramePlan(mat)[i].call.TextureCall?
    ensures FramePlan(mat)[38] == Expect(Plane, Unlit, TextureCall("screen"), FramePlan(mat)[37].uvScale, mat)
  {
    FrameHead(mat);
    FrameKeys(mat);
    FrameTail(mat);
    HeadFacts(mat);
    TailFacts(mat);
  }

  /** What one pass shows draw by draw, for a log that follows the frame
      plan from index `b`: lighting on for the first four draws and off
      after, the unit UV scale and the same material everywhere, the grey
      keys at draws 7 to 32, the red cavity at draw 3, and textures on
      every other draw, the screen last. */
  lemma FrameDraws(log: seq<Draw>, b: nat, mat: MaterialView, recs: seq<TextureRecord>)
    requires Follows(log, b, FramePlan(mat), recs)
    ensures b + 39 <= |log|
    ensures forall k :: b <= k < b + 39 ==> Get(log[k].state, UseLighting) == if k < b + 4 then Lit else Unlit
    ensures forall k :: b <= k < b + 39 ==> Get(log[k].state, UVScale) == UnitUV && MaterialOf(log[k].state) == mat
    ensures forall k :: b + 7 <= k < b + 33 ==> log[k].mesh == Box && Shows(log[k].state, Colored(KeyGrey))
    ensures Shows(log[b + 3].state, Colored(Red))
    ensures forall k :: b <= k < b + 39 && k != b + 3 && !(b + 7 <= k < b + 33) ==> Get(log[k].state, UseTexture) == Some(Flag(true))
    ensures log[b + 38].mesh == Plane && Shows(log[b + 38].state, Textured(SlotOf(recs, "screen")))
  {
    FrameLatches(mat);
    FollowsAt(log, b, FramePlan(mat), recs);
  }
}
