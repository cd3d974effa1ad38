/**
 * The `Mesh` class of include/mesh.h: vertices, indices and textures held
 * by value, and the texture loop of `Draw`, which puts texture `i` on texture
 * unit `i` and points the sampler uniform named after the texture's type at
 * that unit.
 *
 * The GL calls themselves are not modelled: `Draw` returns the bindings it
 * makes, one per texture, and the number of indices it draws.
 */
module Meshes {
  import opened Vectors

  /** `Vertex`: position, normal and texture coordinates. */
  datatype Vertex = Vertex(position: Vec3, normal: Vec3, u: real, v: real)

  /** `Texture`: a GL texture name, its type and the file it came from. */
  datatype Texture = Texture(id: nat, kind: string, path: string)

  /** The type whose textures are numbered by `diffuseNr`. */
  const DiffuseType: string := "texture_diffuse"
  /** The type whose textures are numbered by `specularNr`, spelled as the comparison in `Draw` spells it. */
  const SpecularType: string := "specular_diffuse"

  /** One pass of the loop in `Draw`: the texture unit made active, the sampler uniform set, its value and the texture bound. */
  datatype Binding = Binding(unit: nat, uniform: string, sampler: nat, texture: nat)

  /** The decimal digit for `d`. */
  function Digit(d: nat): char
    requires d < 10
  {
    ('0' as int + d) as char
  }

  predicate IsDigit(c: char)
  {
    '0' <= c <= '9'
  }

  /** The value of a decimal digit. */
  function DigitValue(c: char): nat
    requires IsDigit(c)
  {
    c as int - '0' as int
  }

  /** `std::to_string` of an unsigned counter: its decimal digits, most significant first. */
  function NatToString(n: nat): (s: string)
    ensures 1 <= |s|
    ensures forall k :: 0 <= k < |s| ==> IsDigit(s[k])
  {
    if n < 10 then [Digit(n)] else NatToString(n / 10) + [Digit(n % 10)]
  }

  /** Reads a string of decimal digits back as a number. */
  function ParseNat(s: string): nat
    requires forall k :: 0 <= k < |s| ==> IsDigit(s[k])
  {
    if |s| == 0 then 0 else 10 * ParseNat(s[..|s| - 1]) + DigitValue(s[|s| - 1])
  }

  /** The digits `std::to_string` writes read back as the number written. */
  lemma {:induction false} ParseNatToString(n: nat)
    ensures ParseNat(NatToString(n)) == n
  {
    var s := NatToString(n);
    if n >= 10 {
      var prefix := NatToString(n / 10);
      assert s[..|s| - 1] == prefix;
      ParseNatToString(n / 10);
    }
  }

  /** Different counters give different strings. */
  lemma NatToStringInjective(a: nat, b: nat)
    requires NatToString(a) == NatToString(b)
    ensures a == b
  {
    ParseNatToString(a);
    ParseNatToString(b);
  }

  /** How many textures of `textures` have type `kind`. */
  function CountOfKind(textures: seq<Texture>, kind: string): (c: nat)
    ensures c <= |textures|
  {
    if |textures| == 0 then 0
    else CountOfKind(textures[..|textures| - 1], kind) + (if textures[|textures| - 1].kind == kind then 1 else 0)
  }

  /** Counting over a longer prefix never gives fewer. */
  lemma {:induction false} CountMonotone(textures: seq<Texture>, kind: string, a: nat, b: nat)
    requires a <= b <= |textures|
    ensures CountOfKind(textures[..a], kind) <= CountOfKind(textures[..b], kind)
  {
    if a < b {
      CountMonotone(textures, kind, a, b - 1);
      assert textures[..b][..b - 1] == textures[..b - 1];
    }
  }

  /** Extending the prefix by texture `i` counts it if it has the type. */
  lemma CountStep(textures: seq<Texture>, kind: string, i: nat)
    requires i < |textures|
    ensures CountOfKind(textures[..i + 1], kind)
         == CountOfKind(textures[..i], kind) + (if textures[i].kind == kind then 1 else 0)
  {
    assert textures[..i + 1][..i] == textures[..i];
  }

  /**
   * The name `Draw` gives the sampler of texture `i`: a diffuse texture is
   * numbered by how many diffuse textures there are up to and including it,
   * a specular one likewise among the specular ones, and any other type
   * keeps its bare name.
   */
  function UniformName(textures: seq<Texture>, i: nat): string
    requires i < |textures|
  {
    textures[i].kind + UniformNumber(textures, i)
  }

  /** The number appended to the type name of texture `i`: empty for types without a counter. */
  function UniformNumber(textures: seq<Texture>, i: nat): string
    requires i < |textures|
  {
    var kind := textures[i].kind;
    if kind == DiffuseType || kind == SpecularType then NatToString(CountOfKind(textures[..i + 1], kind))
    else ""
  }

  /** What the texture loop of `Draw` does, texture by texture. */
  function DrawBindings(textures: seq<Texture>): seq<Binding>
  {
    seq(|textures|, i requires 0 <= i < |textures| => Binding(i, UniformName(textures, i), i, textures[i].id))
  }

  /**
   * Texture `i` goes to texture unit `i`, and its sampler is set to `i`; the
   * texture bound there is texture `i`.
   */
  lemma UnitsFollowTextureOrder(textures: seq<Texture>, i: nat)
    requires i < |textures|
    ensures |DrawBindings(textures)| == |textures|
    ensures DrawBindings(textures)[i].unit == DrawBindings(textures)[i].sampler == i
    ensures DrawBindings(textures)[i].texture == textures[i].id
  {
  }

  /**
   * The `k`-th diffuse texture, counting from 1, is sampled through
   * `texture_diffuse` followed by `k`, whatever textures of other types come
   * between.
   */
  lemma DiffuseNumbering(textures: seq<Texture>, i: nat)
    requires i < |textures| && textures[i].kind == DiffuseType
    ensures var k := CountOfKind(textures[..i + 1], DiffuseType);
      1 <= k && UniformName(textures, i) == DiffuseType + NatToString(k)
  {
    assert textures[..i + 1][..i] == textures[..i];
  }

  /** The `k`-th specular texture is numbered `k` by its own counter. */
  lemma SpecularNumbering(textures: seq<Texture>, i: nat)
    requires i < |textures| && textures[i].kind == SpecularType
    ensures var k := CountOfKind(textures[..i + 1], SpecularType);
      1 <= k && UniformName(textures, i) == SpecularType + NatToString(k)
  {
    assert textures[..i + 1][..i] == textures[..i];
  }

  /** The first diffuse texture is `texture_diffuse1`. */
  lemma FirstDiffuseIsOne(textures: seq<Texture>, i: nat)
    requires i < |textures| && textures[i].kind == DiffuseType
    requires forall k :: 0 <= k < i ==> textures[k].kind != DiffuseType
    ensures UniformName(textures, i) == "texture_diffuse1"
  {
    NoneOfKind(textures[..i], DiffuseType);
    assert textures[..i + 1][..i] == textures[..i];
  }

  lemma {:induction false} NoneOfKind(textures: seq<Texture>, kind: string)
    requires forall k :: 0 <= k < |textures| ==> textures[k].kind != kind
    ensures CountOfKind(textures, kind) == 0
  {
    if |textures| > 0 {
      NoneOfKind(textures[..|textures| - 1], kind);
    }
  }

  /** A texture of any other type is sampled through its bare type name. */
  lemma OtherTypesUnnumbered(textures: seq<Texture>, i: nat)
    requires i < |textures| && textures[i].kind != DiffuseType && textures[i].kind != SpecularType
    ensures UniformName(textures, i) == textures[i].kind
  {
    assert textures[i].kind + "" == textures[i].kind;
  }

  /**
   * Two numbered textures of the same type never share a sampler name:
   * each gets its own number.
   */
  lemma NumberedNamesDistinct(textures: seq<Texture>, i: nat, j: nat)
    requires i < j < |textures|
    requires textures[i].kind == textures[j].kind
    requires textures[i].kind == DiffuseType || textures[i].kind == SpecularType
    ensures UniformName(textures, i) != UniformName(textures, j)
  {
    var kind := textures[i].kind;
    var a, b := CountOfKind(textures[..i + 1], kind), CountOfKind(textures[..j + 1], kind);
    CountMonotone(textures, kind, i + 1, j);
    assert textures[..j + 1][..j] == textures[..j];
    assert a < b;
    if UniformName(textures, i) == UniformName(textures, j) {
      assert (kind + NatToString(a))[|kind|..] == NatToString(a);
      assert (kind + NatToString(b))[|kind|..] == NatToString(b);
      NatToStringInjective(a, b);
      assert false;
    }
  }

  class Mesh {
    /** `vertices`. */
    var vertices: seq<Vertex>
    /** `indices`. */
    var indices: seq<nat>
    /** `textures`. */
    var textures: seq<Texture>

    /** The constructor moves its three vectors in unchanged. */
    constructor (vertices: seq<Vertex>, indices: seq<nat>, textures: seq<Texture>)
      ensures this.vertices == vertices && this.indices == indices && this.textures == textures
    {
      this.vertices := vertices;
      this.indices := indices;
      this.textures := textures;
    }

    /**
     * `Draw`: one binding per texture, in order, with the diffuse and
     * specular counters starting at 1; then every index is drawn.
     */
    method Draw() returns (bindings: seq<Binding>, drawn: nat)
      ensures bindings == DrawBindings(textures)
      ensures drawn == |indices|
    {
      var diffuseNr := 1;
      var specularNr := 1;
      bindings := [];
      for i := 0 to |textures|
        invariant diffuseNr == 1 + CountOfKind(textures[..i], DiffuseType)
        invariant specularNr == 1 + CountOfKind(textures[..i], SpecularType)
        invariant |bindings| == i
        invariant forall k :: 0 <= k < i ==> bindings[k] == Binding(k, textures[k].kind + UniformNumber(textures, k), k, textures[k].id)
      {
        var number := "";
        var name := textures[i].kind;
        CountStep(textures, DiffuseType, i);
        CountStep(textures, SpecularType, i);
        if name == DiffuseType {
          number := NatToString(diffuseNr);
          diffuseNr := diffuseNr + 1;
          assert number == UniformNumber(textures, i);
        } else if name == SpecularType {
          number := NatToString(specularNr);
          specularNr := specularNr + 1;
          assert number == UniformNumber(textures, i);
        }
        bindings := bindings + [Binding(i, name + number, i, textures[i].id)];
      }
      drawn := |indices|;
    }
  }
}
