/** The box builder of src/game/util/BoxFactory.ts and the call script of
    src/game/EntitySetup.ts that uses it. What `make` hands to the library
    (`BoxBuilder.CreateBox`, the physics impostor, the material assignment)
    is recorded as a `Box` value appended to `boxes`. */
module Boxes {
  import opened Vectors

  /** A material: the scene's default material, or a material by its name. */
  datatype Material = SceneDefault | Named(name: string)

  /** A box as `make` configures it. */
  datatype Box = Box(name: string, width: real, height: real, depth: real, position: Vec3,
                     mass: real, restitution: real, friction: real, material: Material)

  /** The impostor parameters `make` fixes. */
  const RESTITUTION: real := 0.9
  const FRICTION: real := 0.02

  predicate IsDigit(c: char) {
    '0' <= c <= '9'
  }

  function Digit(d: nat): (c: char)
    requires d < 10
    ensures IsDigit(c)
  {
    ('0' as int + d) as char
  }

  function DigitValue(c: char): (d: nat)
    requires IsDigit(c)
    ensures d < 10
  {
    c as int - '0' as int
  }

  /** The decimal numeral of a counter, as the template literal writes it:
      digits only, and no leading zero except in "0" itself. */
  function Decimal(n: nat): (s: string)
    ensures |s| >= 1
    ensures forall i :: 0 <= i < |s| ==> IsDigit(s[i])
    ensures |s| > 1 ==> s[0] != '0'
    ensures n < 10 <==> |s| == 1
  {
    if n < 10 then [Digit(n)] else Decimal(n / 10) + [Digit(n % 10)]
  }

  /** The value of a string of digits. */
  function ParseDecimal(s: string): nat
    requires forall i :: 0 <= i < |s| ==> IsDigit(s[i])
  {
    if s == [] then 0 else ParseDecimal(s[..|s| - 1]) * 10 + DigitValue(s[|s| - 1])
  }

  /** The numeral gives the counter back. */
  lemma {:induction false} DecimalRoundTrip(n: nat)
    ensures ParseDecimal(Decimal(n)) == n
  {
    var s := Decimal(n);
    if n < 10 {
      assert s[..0] == [];
    } else {
      DecimalRoundTrip(n / 10);
      assert s[..|s| - 1] == Decimal(n / 10);
      assert DigitValue(Digit(n % 10)) == n % 10;
    }
  }

  /** Under one prefix, different counters give different names. */
  lemma NamesDistinct(prefix: string, m: nat, n: nat)
    ensures prefix + Decimal(m) == prefix + Decimal(n) <==> m == n
  {
    if prefix + Decimal(m) == prefix + Decimal(n) {
      assert Decimal(m) == (prefix + Decimal(m))[|prefix|..];
      assert Decimal(n) == (prefix + Decimal(n))[|prefix|..];
      DecimalRoundTrip(m);
      DecimalRoundTrip(n);
    }
  }

  class BoxFactory {
    var counter: nat
    var prefix: string
    var mass: real
    var size: Vec3
    var material: Material
    /** The boxes made so far, oldest first. */
    var boxes: seq<Box>

    /** The counter is the number of boxes made. */
    ghost predicate Valid()
      reads this
    {
      counter == |boxes|
    }

    /** Counter 0, empty prefix, mass 0, size (0, 0, 0), the scene's
        default material. */
    constructor ()
      ensures Valid()
      ensures counter == 0 && prefix == "" && mass == 0.0 && size == Vec3(0.0, 0.0, 0.0)
      ensures material == SceneDefault && boxes == []
    {
      counter := 0;
      prefix := "";
      mass := 0.0;
      size := Vec3(0.0, 0.0, 0.0);
      material := SceneDefault;
      boxes := [];
    }

    /** `withSize`: replaces the size only and returns the same builder. */
    method WithSize(width: real, height: real, depth: real) returns (self: BoxFactory)
      modifies this`size
      ensures self == this && size == Vec3(width, height, depth)
    {
      size := Vec3(width, height, depth);
      self := this;
    }

    /** `withPrefix`: replaces the prefix only; in particular the counter
        goes on where it was. */
    method WithPrefix(prefix: string) returns (self: BoxFactory)
      modifies this`prefix
      ensures self == this && this.prefix == prefix
    {
      this.prefix := prefix;
      self := this;
    }

    /** `withMaterial`: replaces the material only. */
    method WithMaterial(material: Material) returns (self: BoxFactory)
      modifies this`material
      ensures self == this && this.material == material
    {
      this.material := material;
      self := this;
    }

    /** `withMass`: replaces the mass only. */
    method WithMass(mass: real) returns (self: BoxFactory)
      modifies this`mass
      ensures self == this && this.mass == mass
    {
      this.mass := mass;
      self := this;
    }

    /** `make`: a box named by the prefix and the counter, sized, placed and
        weighted by the current settings; then the counter moves on by one. */
    method Make(x: real, y: real, z: real) returns (box: Box)
      requires Valid()
      modifies this`counter, this`boxes
      ensures Valid()
      ensures box == Box(prefix + Decimal(old(counter)), size.x, size.y, size.z, Vec3(x, y, z),
                         mass, RESTITUTION, FRICTION, material)
      ensures counter == old(counter) + 1
      ensures boxes == old(boxes) + [box]
    {
      var name := prefix + Decimal(counter);
      box := Box(name, size.x, size.y, size.z, Vec3(x, y, z), mass, RESTITUTION, FRICTION, material);
      counter := counter + 1;
      boxes := boxes + [box];
    }
  }

  /** The names of the boxes, in order. */
  function Names(boxes: seq<Box>): (r: seq<string>)
    ensures |r| == |boxes| && forall k :: 0 <= k < |r| ==> r[k] == boxes[k].name
  {
    seq(|boxes|, k requires 0 <= k < |boxes| => boxes[k].name)
  }

  /** The name of the k-th box of the entity script. */
  function ScriptName(k: nat): string {
    (if k < 10 then "ground" else "dice") + Decimal(k)
  }

  /** The names the entity script gives its fourteen boxes. */
  const SCRIPT_NAMES: seq<string> :=
    ["ground0", "ground1", "ground2", "ground3", "ground4",
     "ground5", "ground6", "ground7", "ground8", "ground9",
     "dice10", "dice11", "dice12", "dice13"]

  /** `ScriptName` spelled out. */
  lemma ScriptNamesListed()
    ensures |SCRIPT_NAMES| == 14
    ensures forall k :: 0 <= k < 14 ==> ScriptName(k) == SCRIPT_NAMES[k]
  {
    assert ScriptName(0) == "ground0";
    assert ScriptName(1) == "ground1";
    assert ScriptName(2) == "ground2";
    assert ScriptName(3) == "ground3";
    assert ScriptName(4) == "ground4";
    assert ScriptName(5) == "ground5";
    assert ScriptName(6) == "ground6";
    assert ScriptName(7) == "ground7";
    assert ScriptName(8) == "ground8";
    assert ScriptName(9) == "ground9";
    assert ScriptName(10) == "dice10";
    assert ScriptName(11) == "dice11";
    assert ScriptName(12) == "dice12";
    assert ScriptName(13) == "dice13";
  }

  /** The boxes made since `start` are named by `prefix` and their index. */
  ghost predicate NamedFrom(boxes: seq<Box>, start: nat, prefix: string) {
    forall k :: start <= k < |boxes| ==> boxes[k].name == prefix + Decimal(k)
  }

  /** One more box named by the prefix and its index keeps the run named. */
  lemma NamedFromStep(boxes: seq<Box>, start: nat, prefix: string, b: Box)
    requires start <= |boxes| && NamedFrom(boxes, start, prefix) && b.name == prefix + Decimal(|boxes|)
    ensures NamedFrom(boxes + [b], start, prefix) && (boxes + [b])[..start] == boxes[..start]
  {
    assert forall k :: start <= k < |boxes| ==> (boxes + [b])[k] == boxes[k];
  }

  /** `makeEntities`: the four axis markers and six ground parts under the
      prefix "ground", then four dice. The prefix changes for the dice but the
      counter does not restart, so the names run on from 10. */
  method MakeEntities() returns (factory: BoxFactory)
    ensures Names(factory.boxes) == SCRIPT_NAMES
  {
    var matX := Named("MaterialXAxis");
    var matY := Named("MaterialYAxis");
    var matZ := Named("MaterialZAxis");
    var matTransp := Named("MaterialTransparent");

    factory := new BoxFactory();
    var f := factory.WithPrefix("ground");
    f := f.WithMass(0.0);
    f := f.WithSize(0.02, 0.02, 0.02);
    MakeMarkers(factory, matX, matY, matZ);
    MakeGround(factory, matTransp);
    MakeDice(factory, matX);
    ScriptNamesOf(factory.boxes);
  }

  /** Ten boxes under "ground" from 0, then four under "dice", make the
      script's names. */
  lemma ScriptNamesOf(boxes: seq<Box>)
    requires |boxes| == 14
    requires NamedFrom(boxes[..10], 0, "ground") && NamedFrom(boxes, 10, "dice")
    ensures Names(boxes) == SCRIPT_NAMES
  {
    ScriptNamesListed();
    forall k | 0 <= k < 14
      ensures Names(boxes)[k] == SCRIPT_NAMES[k]
    {
      if k < 10 {
        assert boxes[..10][k] == boxes[k];
      }
    }
  }

  /** The first calls of `makeEntities` (src/game/EntitySetup.ts:20-23): four
      `make` calls, a marker at (0, 0, 1) and one a tenth further along each
      axis, switching `withMaterial` to the axis's colour before each of the
      last three. */
  method MakeMarkers(factory: BoxFactory, matX: Material, matY: Material, matZ: Material)
    requires factory.Valid()
    modifies factory
    ensures factory.Valid() && factory.prefix == old(factory.prefix)
    ensures |factory.boxes| == old(|factory.boxes|) + 4
    ensures factory.boxes[..old(|factory.boxes|)] == old(factory.boxes)
    ensures NamedFrom(factory.boxes, old(|factory.boxes|), factory.prefix)
  {
    ghost var start := |factory.boxes|;
    ghost var before := factory.boxes;
    var b := factory.Make(0.0, 0.0, 1.0);
    NamedFromStep(before, start, factory.prefix, b);
    var f := factory.WithMaterial(matX);
    before := factory.boxes;
    b := f.Make(0.1, 0.0, 1.0);
    NamedFromStep(before, start, factory.prefix, b);
    f := factory.WithMaterial(matY);
    before := factory.boxes;
    b := f.Make(0.0, 0.1, 1.0);
    NamedFromStep(before, start, factory.prefix, b);
    f := factory.WithMaterial(matZ);
    before := factory.boxes;
    b := f.Make(0.0, 0.0, 1.1);
    NamedFromStep(before, start, factory.prefix, b);
  }

  /** The ground of `makeEntities` (src/game/EntitySetup.ts:25-45): the
      default material and size (1, 0.1, 1) for the plate (variable `ground0`),
      the transparent lid (`ground5`), then `withSize` for the side walls
      (`ground1`, `ground2`) and the end walls (`ground3`, `ground4`). After
      the four markers these are the boxes named ground4 to ground9. */
  method MakeGround(factory: BoxFactory, matTransp: Material)
    requires factory.Valid()
    modifies factory
    ensures factory.Valid() && factory.prefix == old(factory.prefix)
    ensures |factory.boxes| == old(|factory.boxes|) + 6
    ensures factory.boxes[..old(|factory.boxes|)] == old(factory.boxes)
    ensures NamedFrom(factory.boxes, old(|factory.boxes|), factory.prefix)
  {
    ghost var start := |factory.boxes|;
    ghost var before := factory.boxes;
    var f := factory.WithMaterial(SceneDefault);
    f := f.WithSize(1.0, 0.1, 1.0);
    before := factory.boxes;
    var ground0 := factory.Make(0.0, -0.05, 0.0);
    NamedFromStep(before, start, factory.prefix, ground0);
    f := factory.WithMaterial(matTransp);
    before := factory.boxes;
    var ground5 := f.Make(0.0, 0.55, 0.0);
    NamedFromStep(before, start, factory.prefix, ground5);
    f := factory.WithMaterial(SceneDefault);
    f := f.WithSize(0.1, 0.7, 1.2);
    before := factory.boxes;
    var ground1 := f.Make(0.55, 0.25, 0.0);
    NamedFromStep(before, start, factory.prefix, ground1);
    before := factory.boxes;
    var ground2 := factory.Make(-0.55, 0.25, 0.0);
    NamedFromStep(before, start, factory.prefix, ground2);
    f := factory.WithSize(1.0, 0.7, 0.1);
    before := factory.boxes;
    var ground3 := f.Make(0.0, 0.25, 0.55);
    NamedFromStep(before, start, factory.prefix, ground3);
    before := factory.boxes;
    var ground4 := factory.Make(0.0, 0.25, -0.55);
    NamedFromStep(before, start, factory.prefix, ground4);
  }

  /** The dice of `makeEntities` (src/game/EntitySetup.ts:47-58):
      `withPrefix("dice")`, `withMaterial`, `withSize(0.1, 0.1, 0.1)` and
      `withMass(1)`, then `make` for `dice1` to `dice4`. */
  method MakeDice(factory: BoxFactory, matX: Material)
    requires factory.Valid()
    modifies factory
    ensures factory.Valid() && factory.prefix == "dice"
    ensures |factory.boxes| == old(|factory.boxes|) + 4
    ensures factory.boxes[..old(|factory.boxes|)] == old(factory.boxes)
    ensures NamedFrom(factory.boxes, old(|factory.boxes|), "dice")
  {
    ghost var start := |factory.boxes|;
    ghost var before := factory.boxes;
    var f := factory.WithPrefix("dice");
    f := f.WithMaterial(matX);
    f := f.WithSize(0.1, 0.1, 0.1);
    f := f.WithMass(1.0);
    before := factory.boxes;
    var dice1 := f.Make(0.2, 0.1, 0.2);
    NamedFromStep(before, start, factory.prefix, dice1);
    before := factory.boxes;
    var dice2 := factory.Make(-0.2, 0.1, 0.2);
    NamedFromStep(before, start, factory.prefix, dice2);
    before := factory.boxes;
    var dice3 := factory.Make(-0.2, 0.1, -0.2);
    NamedFromStep(before, start, factory.prefix, dice3);
    before := factory.boxes;
    var dice4 := factory.Make(0.2, 0.1, -0.2);
    NamedFromStep(before, start, factory.prefix, dice4);
  }
}
