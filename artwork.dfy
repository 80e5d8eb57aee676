/**
 * The integer and dispatch part of a token's artwork (`getImage` in src/App.tsx):
 * a 400 by 400 canvas with a fixed background, and at most one centred shape
 * whose size is 200 plus the token id modulo 150 and whose template is chosen
 * by the shape name.  The SVG text and the fractional point coordinates are
 * not modelled.
 */
module Artwork {
  import opened Geometry

  const CanvasSize: nat := 400
  const BaseSize: nat := 200
  const SizeSpread: nat := 150
  const StrokeWidth: nat := 4

  /** The eight drawing templates of the centred shape. */
  datatype Template = Circle | Triangle | Square | Pentagon | Hexagon | Star | Diamond | Octagon

  /** The shape name whose comparison selects a template. */
  function TemplateName(t: Template): (name: string)
    ensures name in ShapeTypes
  {
    match t
    case Circle => "Circle"
    case Triangle => "Triangle"
    case Square => "Square"
    case Pentagon => "Pentagon"
    case Hexagon => "Hexagon"
    case Star => "Star"
    case Diamond => "Diamond"
    case Octagon => "Octagon"
  }

  /**
   * A rendered artwork: the canvas side, the size of the centred shape, the
   * templates drawn inside the centred group (in document order), and the
   * paint every drawn template uses.  The background rectangle is always drawn.
   */
  datatype Image = Image(viewBox: nat, size: nat, shapes: seq<Template>, fill: string, stroke: string, strokeWidth: nat)

  /** Size of the centred shape. */
  function ArtworkSize(tokenId: nat): (size: nat)
    ensures BaseSize <= size < BaseSize + SizeSpread
  {
    BaseSize + tokenId % SizeSpread
  }

  /**
   * The templates drawn for a shape name: one guarded element per template,
   * in the order the group lists them, each drawn when the name equals its own.
   */
  function DrawnTemplates(shapeType: string): (drawn: seq<Template>)
    ensures |drawn| <= 1
    ensures forall k :: 0 <= k < |drawn| ==> TemplateName(drawn[k]) == shapeType
  {
    (if shapeType == "Circle" then [Circle] else [])
    + (if shapeType == "Triangle" then [Triangle] else [])
    + (if shapeType == "Square" then [Square] else [])
    + (if shapeType == "Pentagon" then [Pentagon] else [])
    + (if shapeType == "Hexagon" then [Hexagon] else [])
    + (if shapeType == "Star" then [Star] else [])
    + (if shapeType == "Diamond" then [Diamond] else [])
    + (if shapeType == "Octagon" then [Octagon] else [])
  }

  /** The artwork of a token drawn with the given geometry. */
  function GetImage(tokenId: nat, geometry: GeometryResult): (img: Image)
    ensures img.viewBox == CanvasSize
    ensures BaseSize <= img.size < BaseSize + SizeSpread
    ensures |img.shapes| <= 1
    ensures forall k :: 0 <= k < |img.shapes| ==> TemplateName(img.shapes[k]) == geometry.shapeType
  {
    Image(CanvasSize, ArtworkSize(tokenId), DrawnTemplates(geometry.shapeType),
          geometry.colors.primary, geometry.colors.secondary, StrokeWidth)
  }

  /** Every template is selected by its own name and by no other template's name. */
  lemma TemplateRoundTrip(t: Template)
    ensures DrawnTemplates(TemplateName(t)) == [t]
  {
  }

  /** A name draws exactly one template when it is in the shape table, and none otherwise. */
  lemma ExactlyOneTemplate(shapeType: string)
    ensures |DrawnTemplates(shapeType)| == 1 <==> shapeType in ShapeTypes
    ensures shapeType !in ShapeTypes ==> DrawnTemplates(shapeType) == []
  {
  }

  /** The artwork of a token draws the shape of its geometry, in two different colours. */
  lemma TokenArtworkDrawsItsShape(tokenId: nat)
    ensures var g := GetGeometry(tokenId);
            var img := GetImage(tokenId, g);
            |img.shapes| == 1 && TemplateName(img.shapes[0]) == g.shapeType && img.fill != img.stroke
  {
    GeometryInTables(tokenId);
    ExactlyOneTemplate(GetGeometry(tokenId).shapeType);
  }

  /** The shape size repeats after any offset that is a multiple of 150. */
  lemma SizeShift(tokenId: nat, offset: nat)
    requires offset % SizeSpread == 0
    ensures ArtworkSize(tokenId + offset) == ArtworkSize(tokenId)
  {
    assert (tokenId + offset) % SizeSpread == tokenId % SizeSpread;
  }

  /** The whole artwork of a token repeats with period 600, the least common multiple of 8 and 150. */
  lemma ArtworkPeriodic(tokenId: nat)
    ensures GetImage(tokenId + 600, GetGeometry(tokenId + 600)) == GetImage(tokenId, GetGeometry(tokenId))
  {
    GeometryShift(tokenId, 600);
    SizeShift(tokenId, 600);
  }
}
