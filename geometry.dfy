/**
 * Deterministic geometry of a GeoShapes token (`getGeometry` in src/App.tsx):
 * a shape name and two colours picked from two fixed eight-entry tables by the
 * token id modulo eight.
 */
module Geometry {

  /** The shape names, in the order token ids index them. */
  const ShapeTypes: seq<string> :=
    ["Circle", "Triangle", "Square", "Pentagon", "Hexagon", "Octagon", "Star", "Diamond"]

  /** The colour palette, in the order token ids index it. */
  const Colors: seq<string> :=
    ["#FF6B6B", "#4ECDC4", "#45B7D1", "#96CEB4", "#FFEAA7", "#DDA0DD", "#98D8C8", "#F7DC6F"]

  datatype ColorPair = ColorPair(primary: string, secondary: string)

  datatype GeometryResult = GeometryResult(shapeType: string, colors: ColorPair)

  /** Shape, primary colour and secondary colour of a token. */
  function GetGeometry(tokenId: nat): (g: GeometryResult)
    ensures g.colors.primary != g.colors.secondary
  {
    var shapeIndex := tokenId % |ShapeTypes|;
    var primaryIndex := tokenId % |Colors|;
    var secondaryIndex := (tokenId + 1) % |Colors|;
    ColorsDistinct(primaryIndex, secondaryIndex);
    GeometryResult(ShapeTypes[shapeIndex], ColorPair(Colors[primaryIndex], Colors[secondaryIndex]))
  }

  /** The shape name and both colours of every token are table entries. */
  lemma GeometryInTables(tokenId: nat)
    ensures GetGeometry(tokenId).shapeType in ShapeTypes
    ensures GetGeometry(tokenId).colors.primary in Colors
    ensures GetGeometry(tokenId).colors.secondary in Colors
  {
  }

  /** No colour appears twice in the palette. */
  lemma ColorsDistinct(i: nat, j: nat)
    requires i < |Colors| && j < |Colors|
    ensures Colors[i] == Colors[j] <==> i == j
  {
  }

  /** No shape name appears twice in the table. */
  lemma ShapeTypesDistinct(i: nat, j: nat)
    requires i < |ShapeTypes| && j < |ShapeTypes|
    ensures ShapeTypes[i] == ShapeTypes[j] <==> i == j
  {
  }

  /** The secondary colour of a token is the primary colour of the next token. */
  lemma SecondaryIsNextPrimary(tokenId: nat)
    ensures GetGeometry(tokenId).colors.secondary == GetGeometry(tokenId + 1).colors.primary
  {
  }

  /** Geometry repeats with period eight. */
  lemma GeometryPeriodic(tokenId: nat)
    ensures GetGeometry(tokenId + 8) == GetGeometry(tokenId)
  {
    GeometryShift(tokenId, 8);
  }

  /** Geometry repeats after any offset that is a multiple of eight. */
  lemma GeometryShift(tokenId: nat, offset: nat)
    requires offset % 8 == 0
    ensures GetGeometry(tokenId + offset) == GetGeometry(tokenId)
  {
    var i, j := tokenId % 8, (tokenId + 1) % 8;
    ResidueShift(tokenId, offset);
    ResidueShift(tokenId + 1, offset);
    assert GetGeometry(tokenId + offset) == GeometryResult(ShapeTypes[i], ColorPair(Colors[i], Colors[j]));
  }

  /** Adding a multiple of eight keeps the residue modulo eight. */
  lemma ResidueShift(x: nat, offset: nat)
    requires offset % 8 == 0
    ensures (x + offset) % 8 == x % 8
  {
  }

  /** The secondary-colour index depends only on the token id modulo eight. */
  lemma NextResidue(t: nat)
    ensures (t + 1) % 8 == (t % 8 + 1) % 8
  {
  }

  /** Two tokens share their geometry exactly when they agree modulo eight. */
  lemma GeometryDeterminesResidue(a: nat, b: nat)
    ensures GetGeometry(a) == GetGeometry(b) <==> a % 8 == b % 8
  {
    var ga, gb := GetGeometry(a), GetGeometry(b);
    assert ga.shapeType == ShapeTypes[a % 8] && gb.shapeType == ShapeTypes[b % 8];
    if a % 8 == b % 8 {
      NextResidue(a);
      NextResidue(b);
      assert ga.colors == gb.colors;
    } else {
      ShapeTypesDistinct(a % 8, b % 8);
      assert ga.shapeType != gb.shapeType;
    }
  }

  /** The two worked examples: token 0 and token 2. */
  lemma ExampleTokens()
    ensures GetGeometry(0) == GeometryResult("Circle", ColorPair("#FF6B6B", "#4ECDC4"))
    ensures GetGeometry(2) == GeometryResult("Square", ColorPair("#45B7D1", "#96CEB4"))
  {
    assert GetGeometry(0) == GeometryResult(ShapeTypes[0], ColorPair(Colors[0], Colors[1]));
    assert GetGeometry(2) == GeometryResult(ShapeTypes[2], ColorPair(Colors[2], Colors[3]));
  }
}
