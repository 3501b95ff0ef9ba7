# LightWave 3D object (LWO2) decoder — a Dafny model

This project models the decoder of the `lightwave-3d` Rust crate. The crate reads
LightWave 3D object files (LWO2) with the binrw library. An LWO2 file is
an IFF container: the `FORM` magic, a 32-bit size, the `LWO2` magic, then tagged chunks.
Chunks have a 4-byte big-endian length; the sub-chunks nested in them have a 2-byte one.
Every record is padded to an even position.

The model is written as pure functions over an immutable byte sequence and an
absolute cursor position. binrw's padding and alignment are forward seeks, so
a position may lie past the end of the input. Every read from there fails.
Each decoder returns either an error (a kind and the offset it was raised at)
or the decoded value together with the position after it. The crate declares its
records as binrw schemas, and schemas have no state to mutate. They become
functions here. The crate's three hand-written reading loops (`until_size_limit_with`,
`count_with_vx`, `lwo_null_string`) are Dafny methods with `while` loops. Each
method is proved equal to a recursive specification function that the record
decoders use.

Structure, one module per source file (plus the binrw primitives):

- `Primitives`: what binrw itself supplies.
  - Big-endian integers, floats kept as their bit patterns, byte arrays.
  - `repr` enums, magics, `NullString`, `align_after = 2`, `count = n`.
  - The UTF-8 validity test of `String::from_utf8`.
- `Lwo2`: the variable-width index `vx`, with its canonical encoder and round trip.
- `BinrwHelpers`:
  - the size-bounded list, with its element chain as a sound and complete characterisation, its failure shape and its overshoot;
  - the VX list;
  - the LightWave string, with its parity rule, round trip and worked cases.
- `MagicDispatch`: binrw's reading of an enum whose variants carry magics.
  - It tries the variants in order.
  - For catalogs in which no magic is a prefix of another, the proofs show that the variant whose magic is at the cursor is the one read.
  - Every catalog of the format is proved prefix-free, including the envelope catalog with its 3-byte `PRE`/`KEY` and the image catalog with its 5-byte `STICK`.
- `Iff`: `Chunk` and `SubChunk` framing. The payload gets the declared length. The cursor is then moved up to the declared end and then to an even position. It is never moved back.
- One module per record file: the top-level tags, sub-tags and surface blocks.
- `LightWaveFile`: the root object and binrw's `until_eof`.

Rust's integer panics are modelled as an explicit `ArithmeticPanic` error at the position where the panicking field is read. Examples:
- unsigned `length - n` underflow;
- division by a zero thumbnail width.

Truncating casts are written out as `% 0x1_0000`.

Where the code and the format's documentation disagree, the model follows the code:
- unknown chunks are not skipped: an unrecognised tag fails the file;
- `PRE` and `KEY` are 3-byte magics;
- gradient keys are counted as `length / 18` although each reads 20 bytes;
- the layer's parent is tested by comparing an absolute position with the chunk length;
- the LightWave string treats a zero that ends on an odd position as padding;
- the size-bounded list may overshoot its budget on its last element.

## Model

| member | source | states |
|---|---|---|
| Primitives.ReadU8 | src/lwo2/tags/image_clip.rs:151-152 | one byte when the input has one, else `UnexpectedEof` at the cursor |
| Primitives.ReadU16 | src/lwo2/tags/image_clip.rs:154 | succeeds iff two bytes remain; yields their big-endian value and advances by 2; otherwise EOF at the cursor |
| Primitives.ReadU32 | src/lwo2/tags/image_clip.rs:126 | succeeds iff four bytes remain; yields their big-endian value and advances by 4; otherwise EOF at the cursor |
| Primitives.ReadI16 | src/lwo2/tags/image_clip.rs:153 | the two's-complement reading of the big-endian word; 2 bytes |
| Primitives.ReadI32 | src/lwo2/tags/vertex_map_parameter.rs:9 | the two's-complement reading of the big-endian double word; 4 bytes |
| Primitives.ReadF32 | src/lwo2/tags/image_clip.rs:116-118 | the float's 32-bit pattern, big-endian, 4 bytes |
| Primitives.AsI16 | src/lwo2/tags/image_clip.rs:105-106 | the signed value is congruent to the word modulo 2^16 |
| Primitives.AsI32 | src/lwo2/tags/vertex_map_parameter.rs:9 | the signed value is congruent to the word modulo 2^32 |
| Primitives.ReadBytes | src/lwo2/tags/polygon_list.rs:40 | exactly the next `n` bytes verbatim iff they exist |
| Primitives.ReprVariant | src/lwo2/tags/envelope.rs:90-106 | a `repr` value names a variant iff it lies in the consecutive discriminant range, and names the one at its offset |
| Primitives.ReadEnum8 | src/lwo2/tags/envelope.rs:119-127 | a `repr = u8` enum succeeds iff the byte is a discriminant; errors are reported at the cursor |
| Primitives.ReadEnum16 | src/lwo2/tags/envelope.rs:90-106 | a `repr = u16` enum succeeds iff the word is a discriminant; errors are reported at the cursor |
| Primitives.ReadEnumI32 | src/lwo2/tags/vertex_map_parameter.rs:12-21 | a `repr = i32` enum compares the signed value with the discriminants |
| Primitives.ReadMagic | src/lib.rs:39-43 | succeeds iff the magic's bytes are at the cursor; a mismatch fails at the magic's offset, EOF exactly when it runs past the input |
| Primitives.AlignEven | src/iff.rs:11 | `align_after = 2` lands on the least even position not before the cursor |
| Primitives.NullString | src/lwo2/tags/tag_strings.rs:10 | the bytes up to the first zero, which is consumed; without a zero it fails at the end of the input |
| Primitives.AlignedNullString | src/lwo2/tags/meta.rs:10-11 | the same string, then one pad byte exactly when the string ended on an odd position |
| Primitives.Count | src/lwo2/tags/point_list.rs:14 | `count = n` yields exactly `n` elements |
| Primitives.CountFixedWidth | src/lwo2/tags/point_list.rs:14 | over a fixed-width element, `count = n` succeeds iff `n * w` bytes remain, consumes exactly that, and element `i` is the one at `pos + i * w` |
| Primitives.ReadF32s | src/lwo2/tags/bounding_box.rs:9-10 | `n` floats: succeeds iff `4n` bytes remain, float `i` is the word at `pos + 4i` |
| Primitives.ReadU16s | src/lwo2/sub_tags/blocks/gradient_texture.rs:29-30 | `n` words: succeeds iff `2n` bytes remain, word `i` is at `pos + 2i` |
| Primitives.AsciiIsUtf8 | src/binrw_helpers.rs:71-74 | every ASCII string passes the UTF-8 check |
| Lwo2.Vx | src/lwo2/mod.rs:14-24 | below 0xFF00 the word itself in 2 bytes; otherwise the low byte and the next word, in 4 bytes; always at most 0xFFFFFF; EOF when too few bytes |
| Lwo2.VxBitFormula | src/lwo2/mod.rs:21-22 | the source's mask, shift and or on two 16-bit words equal the arithmetic the model uses |
| Lwo2.VxRoundTrip | src/lwo2/mod.rs:14-24 | every index up to 0xFFFFFF, canonically encoded, decodes to itself and consumes exactly its encoding |
| Lwo2.VxCanonical | src/lwo2/mod.rs:14-24 | every short form and every long form at or above 0xFF00 is exactly the canonical encoding of what it decodes to |
| Lwo2.VxExamples | src/lwo2/mod.rs:18-23 | `00 05` is 5, `FE FF` is 65279, `FF 00 00 0A` is 10, `FF 01 00 01` is 65537; truncated forms fail |
| BinrwHelpers.SizeLimited | src/binrw_helpers.rs:24-44 | the list ends no earlier than `start + limit` and never before the position it began at |
| BinrwHelpers.UntilSizeLimitWith | src/binrw_helpers.rs:24-44 | the loop that tests `now - pos < limit` before each element returns exactly `SizeLimited` |
| BinrwHelpers.SizeLimitedComplete | src/binrw_helpers.rs:36-42 | any chain of element reads that each begin below the limit and end at or past it is the list read, in order |
| BinrwHelpers.SizeLimitedSound | src/binrw_helpers.rs:36-42 | every list read is such a chain: each element read with the same argument at a position below the limit, back to back, in file order |
| BinrwHelpers.SizeLimitedFailure | src/binrw_helpers.rs:36-42 | a failed list fails with the error of its first failing element, after a chain of successful reads; no partial list |
| BinrwHelpers.LimitReached | src/binrw_helpers.rs:37-38 | with the budget used up (for instance a zero limit) nothing is read and the cursor stays |
| BinrwHelpers.SizeLimitedMember | src/binrw_helpers.rs:41-42 | each element of the list is a value the element reader produced with the list's argument |
| BinrwHelpers.LimitOvershoot | src/binrw_helpers.rs:37 | with 4-byte elements and limit 10 the list holds three elements and ends 12 bytes on |
| BinrwHelpers.CountWithVx | src/binrw_helpers.rs:46-55 | the loop returns exactly `count = n` over `vx` |
| BinrwHelpers.VxListWidth | src/binrw_helpers.rs:50-54 | `n` indices take between `2n` and `4n` bytes, each at most 0xFFFFFF |
| BinrwHelpers.VxListRoundTrip | src/binrw_helpers.rs:46-55 | a list of indices, canonically encoded back to back, reads back as itself |
| BinrwHelpers.LwoScanShape | src/binrw_helpers.rs:64-70 | the scan ends just after the first zero that leaves the cursor even, keeping exactly the non-zero bytes passed; every earlier zero left it odd; otherwise EOF |
| BinrwHelpers.LwoString | src/binrw_helpers.rs:58-75 | a result is UTF-8 and ends on an even position past the start; a failure is EOF or `InvalidUtf8` at the start offset |
| BinrwHelpers.LwoStringShape | src/binrw_helpers.rs:58-75 | the whole outcome of `lwo_null_string` stated on the input bytes alone |
| BinrwHelpers.LwoNullString | src/binrw_helpers.rs:58-75 | the byte-by-byte loop with its parity test returns exactly `LwoString` |
| BinrwHelpers.LwoStringRoundTrip | src/binrw_helpers.rs:58-75 | a zero-free UTF-8 text written with one or two zeros up to an even position reads back as itself, ending after the padding |
| BinrwHelpers.LwoStringExamples | src/binrw_helpers.rs:64-70 | `41 42 00 00` is "AB" in 4 bytes, `41 00` is "A" in 2, `41 42 00` fails at EOF |
| BinrwHelpers.LwoStringVersusNullString | src/binrw_helpers.rs:64-70 | on the same bytes the LightWave string reads past an odd-ending zero that ends an aligned `NullString` |
| MagicDispatch.Dispatch | src/lwo2/tags/mod.rs:30-61 | a magic enum succeeds only after consuming input; with no magic of the catalog at the cursor it fails with `NoVariantMatch` there, and it fails elsewhere only by a panic |
| MagicDispatch.DispatchSelects | src/lwo2/tags/mod.rs:30-61 | in a prefix-free catalog the variant whose magic is at the cursor is the one read, whatever its place |
| MagicDispatch.UnitSelects | src/lwo2/tags/envelope.rs:63-78 | a prefix-free enum of unit variants yields the value of the magic at the cursor, after that magic |
| MagicDispatch.UniformDistinct | src/lwo2/tags/mod.rs:33-60 | distinct magics of one width are prefix-free |
| MagicDispatch.DistinctHeads | src/lwo2/tags/envelope.rs:23-38 | magics of mixed widths are prefix-free when their first `w` characters are distinct |
| Iff.Framed | src/iff.rs:11 | the payload's value and outcome; the frame ends on an even position, never before the declared end, and after an overrunning payload when one overran |
| Iff.DecodeChunk | src/iff.rs:4-13 | a 32-bit length, passed to the payload; the chunk keeps it and the payload's value, and ends at or after header plus length, on an even position |
| Iff.DecodeSubChunk | src/iff.rs:26-35 | the same with a 16-bit length widened for the payload |
| Iff.ChunkExtent | src/iff.rs:11 | from an even offset a chunk whose payload stays inside occupies header, length and one pad byte for an odd length |
| Iff.SubChunkExtent | src/iff.rs:33 | the same for a sub-chunk |
| Iff.OverrunKept | src/iff.rs:11 | a payload that overran its length is not rewound |
| Iff.SubChunkPadding | src/iff.rs:32-34 | a sub-chunk declaring 3 bytes whose payload reads 1 byte takes 6 bytes |
| Iff.DerefIsPayload | src/iff.rs:15-24 | dereferencing a chunk gives what its payload read |
| Iff.SubDerefIsPayload | src/iff.rs:37-46 | dereferencing a sub-chunk gives what its payload read |
| Plugin.DecodePluginServerNameAndData | src/lwo2/sub_tags/plugin.rs:3-16 | succeeds iff the aligned name and flags fit in the declared length and the length is present; the parameters are the remaining bytes up to exactly that length; a header that is present but longer than the length panics right after the flags |
| SubTags.DecodeVectorEnvelope | src/lwo2/sub_tags/mod.rs:9-16 | three floats and a VX, 14 or 16 bytes, length ignored |
| SubTags.DecodeName | src/lwo2/sub_tags/mod.rs:18-24 | a LightWave string, UTF-8, ending even |
| SubTags.DecodeValueEnvelope | src/lwo2/sub_tags/mod.rs:26-33 | one float and a VX, 6 or 8 bytes |
| SubTags.DecodeVxReference | src/lwo2/sub_tags/mod.rs:35-41 | exactly one VX |
| SubTags.DecodeEnableState | src/lwo2/sub_tags/mod.rs:43-48 | one 16-bit word |
| Algorithm.DecodeAlgorithm | src/lwo2/sub_tags/blocks/mod.rs:45-53 | a LightWave name, then `length - (name length + 1)` raw bytes; succeeds iff those exist; panics iff the name is too long for the length |
| Blocks.SurfaceBlocksCatalogPrefixFree | src/lwo2/sub_tags/blocks/mod.rs:15-43 | the four block magics are prefix-free |
| Blocks.DecodeSurfaceBlocks | src/lwo2/sub_tags/blocks/mod.rs:15-43 | a block consumes input; a texture block ends no earlier than its declared length |
| Blocks.DecodeTextureBlock | src/lwo2/sub_tags/blocks/mod.rs:19-36 | header sub-chunk, then attributes under `length - (header.length + 6)`; underflow panics after the header |
| Blocks.TextureBlockLength | src/lwo2/sub_tags/blocks/mod.rs:22-34 | IMAP, PROC and GRAD blocks reach their declared length |
| Blocks.DecodeShaderPlugin | src/lwo2/sub_tags/blocks/mod.rs:37-42 | header sub-chunk, then the `FUNC` algorithm sub-chunk, nothing else |
| Blocks.DecodeFunction | src/lwo2/sub_tags/blocks/mod.rs:40-41 | the `FUNC` magic must be there, then an algorithm sub-chunk |
| Blocks.DecodeSurfaceBlockHeader | src/lwo2/sub_tags/blocks/mod.rs:55-62 | two skipped bytes, then header sub-chunks under `length - 4`; a length below 4 panics |
| Blocks.SurfaceBlockHeaderCatalogPrefixFree | src/lwo2/sub_tags/blocks/mod.rs:64-77 | the five header magics are prefix-free |
| Blocks.DecodeSurfaceBlockHeaderSubChunk | src/lwo2/sub_tags/blocks/mod.rs:64-77 | a header sub-chunk consumes input |
| Blocks.DecodeDisplacementAxis | src/lwo2/sub_tags/blocks/mod.rs:79-84 | one 16-bit word |
| Blocks.DecodeOpacityType | src/lwo2/sub_tags/blocks/mod.rs:96-108 | a word in 0..7 names the type; anything else fails at the cursor |
| Blocks.DecodeOpacity | src/lwo2/sub_tags/blocks/mod.rs:86-94 | type, float, VX; fails iff the type is out of range or bytes are missing |
| Blocks.ChannelMagicsPrefixFree | src/lwo2/sub_tags/blocks/mod.rs:117-140 | the ten channel magics are prefix-free |
| Blocks.DecodeChannel | src/lwo2/sub_tags/blocks/mod.rs:110-115 | succeeds iff one of the ten channel magics is at the cursor, giving its channel in 4 bytes; otherwise `NoVariantMatch` there |
| Blocks.ChannelRead | src/lwo2/sub_tags/blocks/mod.rs:117-140 | the channel enum read: both directions of "a channel magic is present" |
| TextureMapping.TextureMappingCatalogPrefixFree | src/lwo2/sub_tags/blocks/texture_mapping.rs:15-30 | the six magics are prefix-free |
| TextureMapping.DecodeTextureMappingSubChunk | src/lwo2/sub_tags/blocks/texture_mapping.rs:15-30 | an element consumes input |
| TextureMapping.DecodeTextureMapping | src/lwo2/sub_tags/blocks/texture_mapping.rs:7-13 | attributes under the full length, reaching it |
| TextureMapping.DecodeCoordinateSystem | src/lwo2/sub_tags/blocks/texture_mapping.rs:32-38 | a word 0 or 1; world coordinates iff 1 |
| TextureMapping.DecodeReferenceObject | src/lwo2/sub_tags/blocks/texture_mapping.rs:40-46 | succeeds iff a NUL-terminated name is present; the name, with the cursor after its terminator moved to an even position |
| TextureMapping.DecodeFalloffType | src/lwo2/sub_tags/blocks/texture_mapping.rs:58-67 | a word in 0..4 names the falloff |
| TextureMapping.DecodeFalloff | src/lwo2/sub_tags/blocks/texture_mapping.rs:48-56 | type, three floats, VX |
| GradientTexture.GradientTextureCatalogPrefixFree | src/lwo2/sub_tags/blocks/gradient_texture.rs:5-22 | the seven magics are prefix-free |
| GradientTexture.DecodeGradientTextureSubChunk | src/lwo2/sub_tags/blocks/gradient_texture.rs:5-22 | an element consumes input |
| GradientTexture.DecodeKeyParameters | src/lwo2/sub_tags/blocks/gradient_texture.rs:25-31 | `length / 2` words within the length |
| GradientTexture.DecodeKeyValue | src/lwo2/sub_tags/blocks/gradient_texture.rs:46-51 | input float and four output floats, always 20 bytes |
| GradientTexture.DecodeKeyValues | src/lwo2/sub_tags/blocks/gradient_texture.rs:38-44 | exactly `length / 18` keys |
| GradientTexture.KeyValuesLayout | src/lwo2/sub_tags/blocks/gradient_texture.rs:38-51 | the keys take `20 * (length / 18)` bytes; key `i` is the one at `pos + 20i` |
| GradientTexture.KeyValuesOverread | src/lwo2/sub_tags/blocks/gradient_texture.rs:42 | from nine declared 20-byte keys on, more keys are read than declared and the list runs past the sub-chunk |
| GradientTexture.KeyValuesExact | src/lwo2/sub_tags/blocks/gradient_texture.rs:42 | below nine keys exactly the declared keys are read |
| GradientTexture.DecodeGradientRange | src/lwo2/sub_tags/blocks/gradient_texture.rs:55-60 | one float |
| GradientTexture.DecodeRepeatMode | src/lwo2/sub_tags/blocks/gradient_texture.rs:63-68 | one word |
| ProceduralTexture.ProceduralTextureCatalogPrefixFree | src/lwo2/sub_tags/blocks/procedural_texture.rs:5-14 | `AXIS`, `VALU`, `FUNC` are prefix-free |
| ProceduralTexture.DecodeProceduralTextureSubChunk | src/lwo2/sub_tags/blocks/procedural_texture.rs:5-14 | an element consumes input |
| ProceduralTexture.DecodeBasicValue | src/lwo2/sub_tags/blocks/procedural_texture.rs:18-24 | `length / 4` floats within the length |
| ProceduralTexture.DecodeAxis | src/lwo2/sub_tags/blocks/procedural_texture.rs:27-32 | one word |
| ImageTexture.ImageTextureCatalogPrefixFree | src/lwo2/sub_tags/blocks/image_texture.rs:8-35 | the twelve magics, with the five-byte `STICK`, are prefix-free |
| ImageTexture.DecodeImageTextureSubChunk | src/lwo2/sub_tags/blocks/image_texture.rs:8-35 | an element consumes input |
| ImageTexture.DecodeMajorAxis | src/lwo2/sub_tags/blocks/image_texture.rs:39-44 | one word |
| ImageTexture.DecodePixelBlending | src/lwo2/sub_tags/blocks/image_texture.rs:48-53 | one word |
| ImageTexture.DecodeAntialiasingStrength | src/lwo2/sub_tags/blocks/image_texture.rs:58-64 | word then float, 6 bytes |
| ImageTexture.DecodeUvMap | src/lwo2/sub_tags/blocks/image_texture.rs:68-74 | a LightWave string |
| ImageTexture.DecodeImageWrapAmount | src/lwo2/sub_tags/blocks/image_texture.rs:78-85 | float then VX |
| ImageTexture.DecodeImageWrapType | src/lwo2/sub_tags/blocks/image_texture.rs:96-110 | a word in 0..3 names the wrap type |
| ImageTexture.DecodeImageWrapOptions | src/lwo2/sub_tags/blocks/image_texture.rs:88-94 | two wrap types, 4 bytes; fails iff either is out of range or bytes are missing |
| ImageTexture.DecodeProjectionMode | src/lwo2/sub_tags/blocks/image_texture.rs:112-122 | a word in 0..5 names the projection |
| SurfaceParameters.SurfaceParameterCatalogPrefixFree | src/lwo2/sub_tags/surface_parameters.rs:8-67 | the catalog has 28 entries and is prefix-free |
| SurfaceParameters.DecodeSurfaceParameterSubChunk | src/lwo2/sub_tags/surface_parameters.rs:8-67 | an element consumes input |
| SurfaceParameters.DecodeVertexColorMap | src/lwo2/sub_tags/surface_parameters.rs:70-80 | float, VX, four type bytes, LightWave name |
| SurfaceParameters.DecodeAlphaModeMode | src/lwo2/sub_tags/surface_parameters.rs:91-103 | a word in 0..3 names the mode |
| SurfaceParameters.DecodeAlphaMode | src/lwo2/sub_tags/surface_parameters.rs:83-89 | mode then float, 6 bytes |
| SurfaceParameters.DecodeRenderOutlines | src/lwo2/sub_tags/surface_parameters.rs:110-125 | flags always; size and its VX iff length > 2; colour and its VX iff length > 8; defaults otherwise; for each length range, success iff exactly the fields read are present |
| SurfaceParameters.DecodeGlowType | src/lwo2/sub_tags/surface_parameters.rs:148-154 | a word 0 or 1 names the glow |
| SurfaceParameters.DecodeGlowEffect | src/lwo2/sub_tags/surface_parameters.rs:133-146 | type, intensity, VX always; size and its VX iff length > 6, zero otherwise; for each length range, success iff exactly the fields read are present |
| SurfaceParameters.DecodeReflectionOptions | src/lwo2/sub_tags/surface_parameters.rs:156-164 | a word in 0..3 names the option |
| SurfaceParameters.DecodePolygonSidedness | src/lwo2/sub_tags/surface_parameters.rs:166-171 | one word |
| SurfaceParameters.DecodeMaxSmoothingAngle | src/lwo2/sub_tags/surface_parameters.rs:173-178 | one float |
| SurfaceDefinition.Attributes | src/lwo2/tags/surface_definition.rs:17-18 | the parameter list reaches its budget |
| SurfaceDefinition.DecodeSurfaceDefinition | src/lwo2/tags/surface_definition.rs:8-19 | two aligned names, then parameters under the length minus the names' bytes; a budget underflow panics |
| PointList.DecodePoint | src/lwo2/tags/point_list.rs:14 | three floats, 12 bytes |
| PointList.DecodePointList | src/lwo2/tags/point_list.rs:10-16 | `length / 12` points; the assertion fails on a length not a multiple of 12 once the points are read |
| PointList.PointListLayout | src/lwo2/tags/point_list.rs:14-15 | succeeds iff the length is a multiple of 12 and present; consumes exactly the length; point `i` is at `pos + 12i` |
| PointList.SinglePoint | src/lwo2/tags/point_list.rs:14-15 | the patterns of 1.0, 2.0, 3.0 give the one point (1.0, 2.0, 3.0) |
| PolygonList.DecodePolygonList | src/lwo2/tags/polygon_list.rs:45-54 | flags are the word's top 6 bits; the low 10 bits count the VX indices |
| PolygonList.PolygonWord | src/lwo2/tags/polygon_list.rs:45-54 | the word is `flags * 1024 + count`; at most 1023 indices of at most 24 bits; 2 + between 2 and 4 bytes per index |
| PolygonList.PolygonRoundTrip | src/lwo2/tags/polygon_list.rs:45-54 | a polygon encoded from flags and indices reads back as them |
| PolygonList.DecodePolygonLists | src/lwo2/tags/polygon_list.rs:36-43 | four type bytes, then polygons under `length - 4`; below 4 it panics |
| PolygonTagMapping.DecodePolygonTagMapping | src/lwo2/tags/polygon_tag_mapping.rs:30-36 | VX polygon and word tag, 4 or 6 bytes |
| PolygonTagMapping.DecodePolygonTagMappings | src/lwo2/tags/polygon_tag_mapping.rs:21-28 | four type bytes, then mappings under `length - 4`; below 4 it panics |
| VertexMapping.DecodeVertexMapping | src/lwo2/tags/vertex_mapping.rs:49-57 | VX, then exactly `dimension` floats |
| VertexMapping.DecodeVertexMappings | src/lwo2/tags/vertex_mapping.rs:32-47 | type, dimension, LightWave name; elements under the length minus the header, each with the dimension; header overrun panics |
| VertexMapping.MappingDimension | src/lwo2/tags/vertex_mapping.rs:45 | every element holds exactly the header's dimension of values |
| DiscontinuousVertexMapping.DecodeDiscontinuousVertexMapping | src/lwo2/tags/discontinuous_vertex_mapping.rs:43-53 | two VX, then `dimension` floats, 4 to 8 bytes plus 4 per value |
| DiscontinuousVertexMapping.DecodeDiscontinuousVertexMappings | src/lwo2/tags/discontinuous_vertex_mapping.rs:26-41 | type, dimension, aligned NUL-terminated name; elements under the remaining length; header overrun panics |
| DiscontinuousVertexMapping.MappingsDimension | src/lwo2/tags/discontinuous_vertex_mapping.rs:39 | every element holds exactly the header's dimension of values |
| TagStrings.DecodeTagString | src/lwo2/tags/tag_strings.rs:10 | a plain NUL-terminated string, no alignment |
| TagStrings.DecodeTagStrings | src/lwo2/tags/tag_strings.rs:5-11 | strings under the full length, reaching it |
| TagStrings.PadByteIsEmptyString | src/lwo2/tags/tag_strings.rs:9-10 | the pad zero after an odd-length string is read as an extra empty string |
| Layer.DecodeLayer | src/lwo2/tags/layer.rs:8-20 | number, flags, pivot, aligned name; parent read iff the absolute position after the name is below the length |
| Layer.ParentNeedsLowOffset | src/lwo2/tags/layer.rs:18 | a payload starting at or past its own length never has a parent |
| Meta.DecodeDescriptionLine | src/lwo2/tags/meta.rs:6-12 | an aligned NUL-terminated line |
| Meta.DecodeThumbnailIconImage | src/lwo2/tags/meta.rs:18-28 | encoding 0, width, `length - 4` bytes; a truncated length below 4 or a zero width panics |
| Meta.IconHeight | src/lwo2/tags/meta.rs:24 | the height is the number of whole rows of `width` in the truncated length minus 4 |
| Meta.HeightTruncates | src/lwo2/tags/meta.rs:24-26 | length 65540, width 1: height 0 while 65536 bytes are read |
| BoundingBox.DecodeBoundingBox | src/lwo2/tags/bounding_box.rs:5-11 | min then max, three floats each, exactly 24 bytes, iff present |
| VertexMapParameter.DecodeUvSubdivisionType | src/lwo2/tags/vertex_map_parameter.rs:12-21 | a signed value in 0..4 names the type |
| VertexMapParameter.DecodeVertexMapParameter | src/lwo2/tags/vertex_map_parameter.rs:4-10 | type and signed colour, exactly 8 bytes |
| Envelope.EnvelopeCatalogPrefixFree | src/lwo2/tags/envelope.rs:21-38 | the seven magics, with 3-byte `PRE` and `KEY`, are prefix-free |
| Envelope.DecodeEnvelopeSubChunk | src/lwo2/tags/envelope.rs:21-38 | an element consumes input |
| Envelope.DecodeEnvelopeDefinition | src/lwo2/tags/envelope.rs:7-19 | VX index, then sub-chunks under the length minus the index width; overrun panics |
| Envelope.DecodePluginChannelName | src/lwo2/tags/envelope.rs:42-48 | succeeds iff a NUL-terminated name is present; the name, with the cursor after its terminator moved to an even position |
| Envelope.InterpolationMagicsPrefixFree | src/lwo2/tags/envelope.rs:63-78 | the six interpolation magics are prefix-free |
| Envelope.DecodeIntervalInterpolationType | src/lwo2/tags/envelope.rs:63-78 | succeeds iff one of the six magics is present, giving its type in 4 bytes; otherwise `NoVariantMatch` |
| Envelope.InterpolationRead | src/lwo2/tags/envelope.rs:63-78 | both directions of "an interpolation magic is at the cursor" |
| Envelope.DecodeIntervalInterpolation | src/lwo2/tags/envelope.rs:54-61 | the type then `(length - 4) / 4` floats, ending within 3 bytes of the length; below 4 it panics |
| Envelope.DecodeKeyframeTimeAndValue | src/lwo2/tags/envelope.rs:82-88 | two floats, 8 bytes |
| Envelope.DecodeBehavior | src/lwo2/tags/envelope.rs:90-106 | a word in 0..5 names the behaviour |
| Envelope.DecodeUserFormat | src/lwo2/tags/envelope.rs:119-127 | a byte in 2..5 names the format |
| Envelope.DecodeEnvelopeKind | src/lwo2/tags/envelope.rs:129-148 | a byte in 1..15 names the kind |
| Envelope.DecodeEnvelopeType | src/lwo2/tags/envelope.rs:111-117 | format byte then kind byte; fails iff either is out of range |
| Envelope.PreTagSpaceInLength | src/lwo2/tags/envelope.rs:26-27 | on a `PRE ` tag the space becomes the length's high byte: at least 0x2000 declared |
| ImageClip.ImageClipCatalogPrefixFree | src/lwo2/tags/image_clip.rs:21-62 | the 19 magics, `HUE\0` included, are prefix-free |
| ImageClip.DecodeImageClipSubChunk | src/lwo2/tags/image_clip.rs:21-62 | an element consumes input |
| ImageClip.DecodeImageClip | src/lwo2/tags/image_clip.rs:12-19 | u32 index, then sub-chunks under `length - 4`; below 4 it panics |
| ImageClip.DecodePluginAnimation | src/lwo2/tags/image_clip.rs:64-79 | file, server, flags, then as many bytes as those took, not the remaining length |
| ImageClip.DecodeColorSpace | src/lwo2/tags/image_clip.rs:84-92 | two words and an aligned name, whatever the flags say |
| ImageClip.DecodeColorCyclingStill | src/lwo2/tags/image_clip.rs:101-109 | two signed words and an aligned name |
| ImageClip.DecodeTime | src/lwo2/tags/image_clip.rs:112-119 | three floats |
| ImageClip.DecodeFlags | src/lwo2/tags/image_clip.rs:122-127 | one 32-bit word |
| ImageClip.DecodeStillImage | src/lwo2/tags/image_clip.rs:130-136 | succeeds iff a NUL-terminated name is present; the name, with the cursor after its terminator moved to an even position |
| ImageClip.DecodeImageSequence | src/lwo2/tags/image_clip.rs:147-161 | u8, u8, i16, u16, i16, i16, aligned prefix and suffix, in that order |
| ImageClip.DecodeReference | src/lwo2/tags/image_clip.rs:165-172 | u32 index and an aligned name |
| Tags.TagCatalogPrefixFree | src/lwo2/tags/mod.rs:30-61 | exactly 14 four-byte tags, pairwise distinct |
| Tags.DecodeTag | src/lwo2/tags/mod.rs:30-61 | a tag consumes input; an unknown magic fails with `NoVariantMatch` at the tag, never skipped |
| Tags.PointListTag | src/lwo2/tags/mod.rs:30-61 | `PNTS` followed by a valid chunk is read as the point list tag of that chunk |
| LightWaveFile.ReadUntilEof | src/lib.rs:43-44 | binrw's `until_eof` over four-byte-magic elements: a list read stops with fewer than four bytes left, never before its start |
| LightWaveFile.UntilEof | src/lib.rs:43-44 | the root's tags are `until_eof` over the tag reader: the list stops with fewer than four bytes left |
| LightWaveFile.UntilEofComplete | src/lib.rs:43-44 | any chain of tags read back to back, each where four bytes remained, ending with fewer than four bytes left, is exactly the list read, in file order |
| LightWaveFile.UntilEofSound | src/lib.rs:43-44 | every list read is such a chain from the cursor to where it stopped: element i is the tag read at the end of element i − 1 |
| LightWaveFile.UntilEofFailure | src/lib.rs:43-44 | a failing list fails with the error of its first failing tag, read after a chain of good tags where four bytes remained; no partial list |
| LightWaveFile.DecodeLightWaveObject | src/lib.rs:38-45 | succeeds iff `FORM` at 0, `LWO2` at 8 and the tags read; the size is kept unchecked; bad magics fail at their offsets |
| LightWaveFile.TrailingBytesIgnored | src/lib.rs:43-44 | one to three bytes after the last tag end the list without error |
| LightWaveFile.UnknownTagFails | src/lib.rs:43-44 | four or more bytes with no known magic fail the file at their offset |
| LightWaveFile.HeaderOnly | src/lib.rs:38-45 | a file of only the header has no tags |
| LightWaveFile.SinglePointFile | src/lib.rs:38-45 | a file with one 12-byte `PNTS` chunk decodes to that one point |

## Left out

- `LightWaveObject::read_file` and `LightWaveObject::read` (src/lib.rs:47-60) are file opening, I/O error mapping and a call into binrw. The model decodes a byte sequence.
- Floating point: no code computes with `f32`; floats are kept as their 32-bit patterns.
- `BinReadTodo` (src/binrw_helpers.rs:6-9) is an unused always-failing placeholder.
- `default_reader` and its `after_parse` hook (src/binrw_helpers.rs:77-88) are binrw plumbing. Elements are read by their decoder directly.
- binrw's error and backtrace types are not modelled. Errors carry one kind and one offset. For an enum variant body that fails, the offset is the enum's position; binrw's aggregation of the per-variant errors is not modelled.
- Rust panics are errors here, not aborts. In a release build some of those subtractions would wrap instead of panicking. The model follows the debug behaviour.
- Algorithm.DecodeAlgorithm: `algorithm_name.len() as u32 + 1` is not truncated to 32 bits, since no name can reach 2^32 bytes in an input of that length.
- Blocks.DecodeSurfaceBlockHeader: a length below 4 panics at the header's start. The source computes the subtraction after the two padding bytes are skipped.
- LightWaveFile.UntilEof: binrw's end-of-input test on a failed tag (`is_eof`) is not part of this model. The model takes it to hold when every variant of the tag failed at end of input. With four-byte magics that happens exactly when fewer than four bytes remain, which is the stop rule stated. A chunk cut short after a recognised magic fails the list in both, because the other variants failed on their magics.
- `EnvelopeDefinition` is modelled, but no top-level tag leads to it: the tag catalog has no `ENVL` entry.
- `Algorithm` is its own module because both the block module and the procedural texture module read it.
- VX cross-references are kept as integers and not resolved against points, polygons, clips or envelopes.
- UTF-8 validity is the concrete well-formedness table of the Unicode standard, not an abstract predicate.
- Meanings of decoded values are not modelled: interpolation, gradient evaluation, wrap modes, layer hiding.
- `Debug` derives and formatting are not modelled.
