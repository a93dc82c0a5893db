/** The three.js objects the core touches, modelled abstractly: vectors,
    texture parameters, render targets as records, textures as opaque handles
    and the renderer as a log of draw events. */
module Three {
  import opened Wrappers

  /** One element of a `Uint8Array`. */
  type byte = b: int | 0 <= b < 256

  datatype Vec3 = Vec3(x: real, y: real, z: real)
  datatype Vec4 = Vec4(x: real, y: real, z: real, w: real)

  const Zero3: Vec3 := Vec3(0.0, 0.0, 0.0)
  /** `new THREE.Vector4()`: three.js sets `w` to 1 by default. */
  const DefaultVec4: Vec4 := Vec4(0.0, 0.0, 0.0, 1.0)

  datatype Filter =
    | NearestFilter
    | NearestMipmapNearestFilter
    | NearestMipmapLinearFilter
    | LinearFilter
    | LinearMipmapNearestFilter
    | LinearMipmapLinearFilter

  datatype Wrapping = RepeatWrapping | ClampToEdgeWrapping | MirroredRepeatWrapping

  datatype PixelFormat = RedFormat | RGFormat | RGBFormat | RGBAFormat

  datatype TextureDataType = UnsignedByteType | FloatType

  /** Identity of a `WebGLRenderTarget`: the primary target of pass `pass`,
      or the second target a `buffer` pass owns for double buffering. */
  datatype TargetId = Primary(pass: nat) | DoubleBuffer(pass: nat)

  /** A render target is its identity and its current size. */
  datatype RenderTarget = RenderTarget(id: TargetId, width: int, height: int)

  /** An opaque texture handle: the texture of a render target, or a data
      texture owned by an input adapter. */
  datatype Texture = TargetTexture(target: TargetId) | DataTexture(handle: nat)

  /** The value held by a sampler uniform: `null` before anything is
      connected, JavaScript `undefined`, or a texture. */
  datatype Binding = NullBinding | UndefinedBinding | Bound(texture: Texture)

  /** The full-screen quad of pass `pass`, or the quad that copies a buffer
      pass's primary target into its double-buffer target. */
  datatype Scene = PassScene(pass: nat) | CopyScene(pass: nat)

  /** One `renderer.render(scene, camera)` call and the target it drew into
      (`None` is the canvas). */
  datatype Draw = Draw(target: Option<TargetId>, scene: Scene)

  /** `THREE.WebGLRenderer`, reduced to its current target and a log of draws. */
  class Renderer {
    var target: Option<TargetId>
    var draws: seq<Draw>

    constructor ()
      ensures target == None && draws == []
    {
      target := None;
      draws := [];
    }

    method SetRenderTarget(t: Option<TargetId>)
      modifies this`target
      ensures target == t
    {
      target := t;
    }

    method Render(scene: Scene)
      modifies this`draws
      ensures draws == old(draws) + [Draw(target, scene)]
    {
      draws := draws + [Draw(target, scene)];
    }
  }
}
