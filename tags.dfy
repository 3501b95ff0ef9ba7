/**
 * The top-level chunks of an LWO2 file: each variant is a magic followed by
 * a chunk whose payload decoder is the record of that tag.
 */
module Tags {
  import opened Primitives
  import opened Iff
  import opened MagicDispatch
  import Layers = Layer
  import Points = PointList
  import VertexMaps = VertexMapping
  import Strings = TagStrings
  import PolygonTags = PolygonTagMapping
  import DiscontinuousMaps = DiscontinuousVertexMapping
  import MapParameters = VertexMapParameter
  import Bounds = BoundingBox
  import Meta
  import Polygons = PolygonList
  import Surfaces = SurfaceDefinition
  import Clips = ImageClip

  datatype Tag =
    | Layer(layer: Chunk<Layers.Layer>)
    | PointList(pointList: Chunk<Points.PointList>)
    | VertexMapping(vertexMapping: Chunk<VertexMaps.VertexMappings>)
    | TagStrings(tagStrings: Chunk<Strings.TagStrings>)
    | PolygonTagMapping(polygonTagMapping: Chunk<PolygonTags.PolygonTagMappings>)
    | DiscontinuousVertexMapping(discontinuousVertexMapping: Chunk<DiscontinuousMaps.DiscontinuousVertexMappings>)
    | VertexMapParameter(vertexMapParameter: Chunk<MapParameters.VertexMapParameter>)
    | BoundingBox(boundingBox: Chunk<Bounds.BoundingBox>)
    | DescriptionLine(descriptionLine: Chunk<Meta.DescriptionLine>)
    | CommentaryText(commentaryText: Chunk<Meta.DescriptionLine>)
    | ThumbnailIconImage(thumbnailIconImage: Chunk<Meta.ThumbnailIconImage>)
    | PolygonList(polygonList: Chunk<Polygons.PolygonLists>)
    | SurfaceDefinition(surfaceDefinition: Chunk<Surfaces.SurfaceDefinition>)
    | ImageClip(imageClip: Chunk<Clips.ImageClip>)

  /** Layers, geometry and vertex maps. */
  const GeometryCatalog: seq<Entry<Tag>> := [
    ChunkEntry("LAYR", Layers.DecodeLayer, (c: Chunk<Layers.Layer>) => Layer(c)),
    ChunkEntry("PNTS", Points.DecodePointList, (c: Chunk<Points.PointList>) => PointList(c)),
    ChunkEntry("VMAP", VertexMaps.DecodeVertexMappings, (c: Chunk<VertexMaps.VertexMappings>) => VertexMapping(c)),
    ChunkEntry("TAGS", Strings.DecodeTagStrings, (c: Chunk<Strings.TagStrings>) => TagStrings(c)),
    ChunkEntry("PTAG", PolygonTags.DecodePolygonTagMappings, (c: Chunk<PolygonTags.PolygonTagMappings>) => PolygonTagMapping(c)),
    ChunkEntry("VMAD", DiscontinuousMaps.DecodeDiscontinuousVertexMappings,
               (c: Chunk<DiscontinuousMaps.DiscontinuousVertexMappings>) => DiscontinuousVertexMapping(c)),
    ChunkEntry("VMPA", MapParameters.DecodeVertexMapParameter, (c: Chunk<MapParameters.VertexMapParameter>) => VertexMapParameter(c))
  ]

  /** Bounds, descriptions, polygons, surfaces and clips. */
  const ObjectCatalog: seq<Entry<Tag>> := [
    ChunkEntry("BBOX", Bounds.DecodeBoundingBox, (c: Chunk<Bounds.BoundingBox>) => BoundingBox(c)),
    ChunkEntry("DESC", Meta.DecodeDescriptionLine, (c: Chunk<Meta.DescriptionLine>) => DescriptionLine(c)),
    ChunkEntry("TEXT", Meta.DecodeDescriptionLine, (c: Chunk<Meta.DescriptionLine>) => CommentaryText(c)),
    ChunkEntry("ICON", Meta.DecodeThumbnailIconImage, (c: Chunk<Meta.ThumbnailIconImage>) => ThumbnailIconImage(c)),
    ChunkEntry("POLS", Polygons.DecodePolygonLists, (c: Chunk<Polygons.PolygonLists>) => PolygonList(c)),
    ChunkEntry("SURF", Surfaces.DecodeSurfaceDefinition, (c: Chunk<Surfaces.SurfaceDefinition>) => SurfaceDefinition(c)),
    ChunkEntry("CLIP", Clips.DecodeImageClip, (c: Chunk<Clips.ImageClip>) => ImageClip(c))
  ]

  /** The variants of a tag, in declaration order: fourteen four-byte magics. */
  const TagCatalog: seq<Entry<Tag>> := GeometryCatalog + ObjectCatalog

  lemma TagCatalogPrefixFree()
    ensures |TagCatalog| == 14
    ensures PrefixFree(Magics(TagCatalog))
  {
    UniformDistinct(Magics(TagCatalog), 4);
  }

  /** One top-level chunk: the variant named by the magic at the cursor. */
  function DecodeTag(data: seq<u8>, pos: nat): (r: Result<Decoded<Tag>>)
    ensures r.Ok? ==> pos < |data| && pos < r.value.next
    ensures (forall i :: 0 <= i < |TagCatalog| ==> !MagicAt(TagCatalog[i].magic, data, pos)) ==> r == Err(Error(NoVariantMatch, pos))
    ensures r.Err? && r.error.kind != ArithmeticPanic ==> r.error == Error(NoVariantMatch, pos)
  {
    Dispatch(TagCatalog, data, pos)
  }

  /**
   * A point list chunk read as a tag: `PNTS`, the length and the points, the
   * tag ending after the declared length (and its pad byte).
   */
  lemma PointListTag(data: seq<u8>, pos: nat)
    requires MagicAt("PNTS", data, pos)
    requires DecodeChunk(Points.DecodePointList, data, pos + 4).Ok?
    ensures DecodeTag(data, pos) == Ok(Decoded(PointList(DecodeChunk(Points.DecodePointList, data, pos + 4).value.value),
                                               DecodeChunk(Points.DecodePointList, data, pos + 4).value.next))
  {
    var c := TagCatalog;
    TagCatalogPrefixFree();
    assert c[1] == ChunkEntry("PNTS", Points.DecodePointList, (c: Chunk<Points.PointList>) => PointList(c));
    assert c[1].magic == Magics(c)[1];
    DispatchSelects(c, data, pos, 1);
  }
}
