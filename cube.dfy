/**
 * The bookkeeping of the `Cube` class of include/cube.hpp: the transform
 * setters and the lazily recomputed model matrix, the hand-off of OpenGL
 * handles by the move operations, which handles the destructor releases, and
 * the vertex arrays uploaded to the buffer.
 *
 * OpenGL names (`_VAO`, `_VBO`, the texture names) are natural numbers, 0
 * meaning "no object". The calls that create them are foreign: the
 * constructors take the names those calls returned as parameters. A 4x4
 * matrix is kept as the chain of `glm` operations that built it.
 */
module Cubes {
  import opened Vectors
  import opened CubeGeometry

  datatype RenderMode = Material | Texture | Color

  /** Phong material of `RenderMode::Material`. */
  datatype MaterialProps = MaterialProps(ambient: Vec3, diffuse: Vec3, specular: Vec3, shininess: real)

  const NoMaterial: MaterialProps := MaterialProps(Zero, Zero, Zero, 0.0)

  /** A 4x4 matrix as the `glm` calls that produced it, starting from the identity. */
  datatype Mat4 =
    | Identity
    | Translate(m: Mat4, offset: Vec3)
    | Rotate(m: Mat4, radians: real, axis: Vec3)
    | ScaleBy(m: Mat4, factors: Vec3)

  /** `glm::radians`. */
  function Radians(degrees: real): real {
    degrees * Pi / 180.0
  }

  /**
   * `updateModel`: translate to the centre, rotate by the angle (in degrees)
   * about the axis, then scale, each applied to the matrix so far.
   */
  function UpdateModel(center: Vec3, angle: real, axis: Vec3, scale: Vec3): Mat4 {
    ScaleBy(Rotate(Translate(Identity, center), Radians(angle), axis), scale)
  }

  /** The names a destructor would pass to `glDelete*`, in call order. */
  function DestructorReleasesAsWritten(vao: nat, vbo: nat, hasTexture: bool, hasDualTexture: bool,
                                       diffuse: nat, specular: nat): (r: seq<nat>)
    ensures |r| >= 2 && r[0] == vao && r[1] == vbo
    ensures hasTexture && specular in r ==> specular in {vao, vbo, diffuse}
  {
    [vao, vbo] +
    (if hasTexture then [diffuse]
     else if hasDualTexture then [diffuse, specular]
     else [])
  }

  /**
   * `~Cube` as written: the dual-texture constructor sets `_hasTexture` too,
   * so the `else if` branch never runs and the specular texture is never
   * deleted.
   */
  lemma DualTextureLeaksSpecular()
    ensures 4 !in DestructorReleasesAsWritten(1, 2, true, true, 3, 4)
  {
  }

  /** The destructor as evidently intended: every texture the cube loaded is deleted. */
  function DestructorReleases(vao: nat, vbo: nat, hasTexture: bool, hasDualTexture: bool,
                              diffuse: nat, specular: nat): (r: seq<nat>)
    ensures vao in r && vbo in r
    ensures hasTexture || hasDualTexture ==> diffuse in r
    ensures hasDualTexture ==> specular in r
    ensures forall h :: h in r ==> h in {vao, vbo} || ((hasTexture || hasDualTexture) && h == diffuse)
                                                    || (hasDualTexture && h == specular)
  {
    [vao, vbo] +
    (if hasDualTexture then [diffuse, specular]
     else if hasTexture then [diffuse]
     else [])
  }

  /**
   * The non-zero names the move assignment deletes before taking over:
   * the array and buffer, the diffuse texture if textured, and both textures
   * if dual-textured (the diffuse one a second time).
   */
  function MoveReleases(vao: nat, vbo: nat, hasTexture: bool, hasDualTexture: bool,
                        diffuse: nat, specular: nat): (r: seq<nat>)
    ensures forall h :: h in r ==> h != 0
  {
    (if vao != 0 then [vao] else []) +
    (if vbo != 0 then [vbo] else []) +
    (if hasTexture && diffuse != 0 then [diffuse] else []) +
    (if hasDualTexture then
       (if diffuse != 0 then [diffuse] else []) + (if specular != 0 then [specular] else [])
     else [])
  }

  /**
   * The move assignment and the intended destructor free the same live
   * objects: the non-zero names among those the cube owns.
   */
  lemma MoveAndDestructorReleaseTheSame(vao: nat, vbo: nat, hasTexture: bool, hasDualTexture: bool,
                                        diffuse: nat, specular: nat)
    requires hasDualTexture ==> hasTexture
    ensures (set h | h in MoveReleases(vao, vbo, hasTexture, hasDualTexture, diffuse, specular))
          == (set h | h in DestructorReleases(vao, vbo, hasTexture, hasDualTexture, diffuse, specular) && h != 0)
  {
  }

  /** A moved-from cube owns nothing: its destructor only passes 0, which OpenGL ignores. */
  lemma MovedFromReleasesNothing(hasTexture: bool, hasDualTexture: bool)
    ensures forall h :: h in DestructorReleases(0, 0, hasTexture, hasDualTexture, 0, 0) ==> h == 0
    ensures MoveReleases(0, 0, hasTexture, hasDualTexture, 0, 0) == []
  {
  }

  /** The fields of a `Cube`, as one value. */
  datatype CubeState = CubeState(
    vertices: seq<real>, vbo: nat, vao: nat, hasTexture: bool, hasDualTexture: bool,
    textureDiffuse: nat, textureSpecular: nat, color: Vec3, material: MaterialProps,
    renderMode: RenderMode, scale: Vec3, center: Vec3, rotationAxis: Vec3, rotation: real,
    model: Mat4, modelDirty: bool)

  /** What a move leaves in its source: no vertices and no names; flags, transform and cache kept. */
  function MovedFrom(s: CubeState): (t: CubeState)
    ensures t.vao == 0 && t.vbo == 0 && t.textureDiffuse == 0 && t.textureSpecular == 0 && t.vertices == []
    ensures t.(vertices := s.vertices, vao := s.vao, vbo := s.vbo,
               textureDiffuse := s.textureDiffuse, textureSpecular := s.textureSpecular) == s
  {
    s.(vertices := [], vao := 0, vbo := 0, textureDiffuse := 0, textureSpecular := 0)
  }

  /**
   * Whoever held the names before a move, afterwards exactly the target
   * holds them: the source's destructor releases nothing live, and a cache
   * that was coherent stays coherent on both sides.
   */
  lemma MoveHandsOff(s: CubeState)
    ensures var t := MovedFrom(s);
      forall h :: h in DestructorReleases(t.vao, t.vbo, t.hasTexture, t.hasDualTexture, t.textureDiffuse, t.textureSpecular)
        ==> h == 0
    ensures var t := MovedFrom(s);
      t.modelDirty == s.modelDirty && t.model == s.model && t.center == s.center &&
      t.rotation == s.rotation && t.rotationAxis == s.rotationAxis && t.scale == s.scale
  {
    MovedFromReleasesNothing(s.hasTexture, s.hasDualTexture);
  }

  class Cube {
    var cubeVertices: seq<real>
    var vbo: nat
    var vao: nat
    var hasTexture: bool
    var hasDualTexture: bool
    var textureDiffuse: nat
    var textureSpecular: nat
    var color: Vec3
    var material: MaterialProps
    var renderMode: RenderMode
    var scale: Vec3
    var center: Vec3
    var rotationAxis: Vec3
    var rotation: real
    var model: Mat4
    var modelDirty: bool

    /** The cached matrix is the current transform's whenever the dirty flag is clear. */
    predicate CacheCoherent()
      reads this`modelDirty, this`model, this`center, this`rotation, this`rotationAxis, this`scale
    {
      !modelDirty ==> model == UpdateModel(center, rotation, rotationAxis, scale)
    }

    /** Texture names are held only by textured cubes; a dual-textured cube is textured. */
    predicate TexturesOwned()
      reads this`hasTexture, this`hasDualTexture, this`textureDiffuse, this`textureSpecular
    {
      (hasDualTexture ==> hasTexture) &&
      (!hasTexture ==> textureDiffuse == 0) &&
      (!hasDualTexture ==> textureSpecular == 0)
    }

    /** Every field, as one value. */
    function State(): CubeState
      reads this`cubeVertices, this`vbo, this`vao, this`hasTexture, this`hasDualTexture, this`textureDiffuse,
        this`textureSpecular, this`color, this`material, this`renderMode, this`scale, this`center,
        this`rotationAxis, this`rotation, this`model, this`modelDirty
    {
      CubeState(cubeVertices, vbo, vao, hasTexture, hasDualTexture, textureDiffuse, textureSpecular,
                color, material, renderMode, scale, center, rotationAxis, rotation, model, modelDirty)
    }

    /** What `~Cube` deletes, as evidently intended. */
    function Releases(): seq<nat>
      reads this`vao, this`vbo, this`hasTexture, this`hasDualTexture, this`textureDiffuse, this`textureSpecular
    {
      DestructorReleases(vao, vbo, hasTexture, hasDualTexture, textureDiffuse, textureSpecular)
    }

    /** The defaults of the member initialisers: unit scale, origin, y axis, no rotation, dirty. */
    predicate DefaultTransform()
      reads this`scale, this`rotationAxis, this`rotation, this`model, this`modelDirty
    {
      scale == Vec3(1.0, 1.0, 1.0) && rotationAxis == Vec3(0.0, 1.0, 0.0) && rotation == 0.0 &&
      model == Identity && modelDirty
    }

    /**
     * `Cube::withColor`: flat colour, untextured vertices. `vao` and `vbo`
     * are the names `setupBuffer` generated.
     */
    constructor WithColor(center: Vec3, color: Vec3, vao: nat, vbo: nat)
      ensures DefaultTransform() && CacheCoherent() && TexturesOwned()
      ensures this.center == center && this.color == color && renderMode == Color
      ensures !hasTexture && !hasDualTexture
      ensures cubeVertices == UntexturedFloats() && this.vao == vao && this.vbo == vbo
    {
      this.center, this.color, renderMode, material := center, color, Color, NoMaterial;
      hasTexture, hasDualTexture, textureDiffuse, textureSpecular := false, false, 0, 0;
      scale, rotationAxis, rotation := Vec3(1.0, 1.0, 1.0), Vec3(0.0, 1.0, 0.0), 0.0;
      model, modelDirty := Identity, true;
      cubeVertices := UntexturedFloats();
      this.vao, this.vbo := vao, vbo;
    }

    /** `Cube::withMaterial`: Phong material, untextured vertices. */
    constructor WithMaterial(center: Vec3, material: MaterialProps, vao: nat, vbo: nat)
      ensures DefaultTransform() && CacheCoherent() && TexturesOwned()
      ensures this.center == center && this.material == material && renderMode == Material
      ensures !hasTexture && !hasDualTexture
      ensures cubeVertices == UntexturedFloats() && this.vao == vao && this.vbo == vbo
    {
      this.center, color, renderMode, this.material := center, Zero, Material, material;
      hasTexture, hasDualTexture, textureDiffuse, textureSpecular := false, false, 0, 0;
      scale, rotationAxis, rotation := Vec3(1.0, 1.0, 1.0), Vec3(0.0, 1.0, 0.0), 0.0;
      model, modelDirty := Identity, true;
      cubeVertices := UntexturedFloats();
      this.vao, this.vbo := vao, vbo;
    }

    /** `Cube::withTexture`: one diffuse texture, named `diffuse` by `loadTexture`. */
    constructor WithTexture(center: Vec3, diffuse: nat, vao: nat, vbo: nat)
      ensures DefaultTransform() && CacheCoherent() && TexturesOwned()
      ensures this.center == center && renderMode == Texture
      ensures hasTexture && !hasDualTexture && textureDiffuse == diffuse && textureSpecular == 0
      ensures cubeVertices == TexturedFloats() && this.vao == vao && this.vbo == vbo
    {
      this.center, color, renderMode, material := center, Zero, Texture, NoMaterial;
      hasTexture, hasDualTexture, textureDiffuse, textureSpecular := true, false, diffuse, 0;
      scale, rotationAxis, rotation := Vec3(1.0, 1.0, 1.0), Vec3(0.0, 1.0, 0.0), 0.0;
      model, modelDirty := Identity, true;
      cubeVertices := TexturedFloats();
      this.vao, this.vbo := vao, vbo;
    }

    /** `Cube::withDualTexture`: diffuse and specular maps; both flags are set. */
    constructor WithDualTexture(center: Vec3, diffuse: nat, specular: nat, vao: nat, vbo: nat)
      ensures DefaultTransform() && CacheCoherent() && TexturesOwned()
      ensures this.center == center && renderMode == Texture
      ensures hasTexture && hasDualTexture && textureDiffuse == diffuse && textureSpecular == specular
      ensures cubeVertices == TexturedFloats() && this.vao == vao && this.vbo == vbo
    {
      this.center, color, renderMode, material := center, Zero, Texture, NoMaterial;
      hasTexture, hasDualTexture, textureDiffuse, textureSpecular := true, true, diffuse, specular;
      scale, rotationAxis, rotation := Vec3(1.0, 1.0, 1.0), Vec3(0.0, 1.0, 0.0), 0.0;
      model, modelDirty := Identity, true;
      cubeVertices := TexturedFloats();
      this.vao, this.vbo := vao, vbo;
    }

    /**
     * The move constructor: every field is taken from `other`, whose names
     * are then zeroed so that only the new cube owns the GPU objects. The
     * moved-from vertex vector is left empty.
     */
    constructor Moved(other: Cube)
      modifies other`vao, other`vbo, other`textureDiffuse, other`textureSpecular, other`cubeVertices
      ensures State() == old(other.State())
      ensures other.State() == MovedFrom(old(other.State()))
    {
      new;
      Assign(other.State());
      other.GiveUpHandles();
    }

    /**
     * The move assignment. Assigning a cube to itself changes nothing and
     * deletes nothing. Otherwise the names this cube owns are deleted
     * (`released`), every field is taken from `other`, and `other`'s names
     * are zeroed.
     */
    method MoveAssign(other: Cube) returns (released: seq<nat>)
      modifies this, other
      ensures other == this ==> released == [] && State() == old(State())
      ensures other != this ==>
        released == MoveReleases(old(vao), old(vbo), old(hasTexture), old(hasDualTexture),
                                 old(textureDiffuse), old(textureSpecular))
      ensures other != this ==> State() == old(other.State())
      ensures other != this ==> other.State() == MovedFrom(old(other.State()))
    {
      released := [];
      if this != other {
        released := MoveReleases(vao, vbo, hasTexture, hasDualTexture, textureDiffuse, textureSpecular);
        Assign(other.State());
        other.GiveUpHandles();
      }
    }

    /** Every field takes its value from `s`. */
    method Assign(s: CubeState)
      modifies this
      ensures State() == s
    {
      AssignResources(s);
      AssignLook(s);
    }

    /** The vertices, the names and the texture flags take their values from `s`. */
    method AssignResources(s: CubeState)
      modifies this`cubeVertices, this`vbo, this`vao, this`hasTexture, this`hasDualTexture,
        this`textureDiffuse, this`textureSpecular
      ensures cubeVertices == s.vertices && vbo == s.vbo && vao == s.vao
      ensures hasTexture == s.hasTexture && hasDualTexture == s.hasDualTexture
      ensures textureDiffuse == s.textureDiffuse && textureSpecular == s.textureSpecular
    {
      cubeVertices, vbo, vao := s.vertices, s.vbo, s.vao;
      hasTexture, hasDualTexture := s.hasTexture, s.hasDualTexture;
      textureDiffuse, textureSpecular := s.textureDiffuse, s.textureSpecular;
    }

    /** The appearance, the transform and the cached matrix take their values from `s`. */
    method AssignLook(s: CubeState)
      modifies this`color, this`material, this`renderMode, this`scale, this`center,
        this`rotationAxis, this`rotation, this`model, this`modelDirty
      ensures color == s.color && material == s.material && renderMode == s.renderMode
      ensures scale == s.scale && center == s.center && rotationAxis == s.rotationAxis
      ensures rotation == s.rotation && model == s.model && modelDirty == s.modelDirty
    {
      color, material, renderMode := s.color, s.material, s.renderMode;
      scale, center, rotationAxis := s.scale, s.center, s.rotationAxis;
      rotation, model, modelDirty := s.rotation, s.model, s.modelDirty;
    }

    /** The moved-from side: the vertex vector is emptied and every name zeroed. */
    method GiveUpHandles()
      modifies this`cubeVertices, this`vao, this`vbo, this`textureDiffuse, this`textureSpecular
      ensures cubeVertices == [] && vao == 0 && vbo == 0 && textureDiffuse == 0 && textureSpecular == 0
    {
      cubeVertices, vao, vbo, textureDiffuse, textureSpecular := [], 0, 0, 0, 0;
    }

    /** `set_color`: only the colour changes; the transform and its cache are untouched. */
    method SetColor(newColor: Vec3)
      modifies this`color
      ensures color == newColor
    {
      color := newColor;
    }

    /** `set_position`: an equal position changes nothing; a new one is stored and marks the matrix stale. */
    method SetPosition(newPos: Vec3)
      requires CacheCoherent()
      modifies this`center, this`modelDirty
      ensures center == newPos
      ensures modelDirty == (old(modelDirty) || newPos != old(center))
      ensures CacheCoherent()
    {
      if center != newPos {
        center := newPos;
        modelDirty := true;
      }
    }

    /** `set_scale`: the same rule for the scale. */
    method SetScale(newScale: Vec3)
      requires CacheCoherent()
      modifies this`scale, this`modelDirty
      ensures scale == newScale
      ensures modelDirty == (old(modelDirty) || newScale != old(scale))
      ensures CacheCoherent()
    {
      if scale != newScale {
        scale := newScale;
        modelDirty := true;
      }
    }

    /** `set_rotation`: stale exactly when the angle or the axis differs; both are stored. */
    method SetRotation(angle: real, axis: Vec3)
      requires CacheCoherent()
      modifies this`rotation, this`rotationAxis, this`modelDirty
      ensures rotation == angle && rotationAxis == axis
      ensures modelDirty == (old(modelDirty) || angle != old(rotation) || axis != old(rotationAxis))
      ensures CacheCoherent()
    {
      if rotation != angle || rotationAxis != axis {
        rotation := angle;
        rotationAxis := axis;
        modelDirty := true;
      }
    }

    /**
     * `get_model`: always the current transform's matrix. It is recomputed
     * only when stale; a clean cache is returned as it is, so a second call
     * with no setter in between returns the same matrix without recomputing.
     */
    method GetModel() returns (m: Mat4)
      requires CacheCoherent()
      modifies this`model, this`modelDirty
      ensures m == UpdateModel(center, rotation, rotationAxis, scale)
      ensures m == model && !modelDirty
      ensures !old(modelDirty) ==> model == old(model)
    {
      if modelDirty {
        UpdateModelStep();
        modelDirty := false;
      }
      m := model;
    }

    /** `updateModel`: identity, translate, rotate, scale. */
    method UpdateModelStep()
      modifies this`model
      ensures model == UpdateModel(center, rotation, rotationAxis, scale)
    {
      model := Identity;
      model := Translate(model, center);
      model := Rotate(model, Radians(rotation), rotationAxis);
      model := ScaleBy(model, scale);
    }
  }
}
