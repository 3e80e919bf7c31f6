# Keyframe attributes of the NFT minting script

This project models the one piece of original logic in the minting script
`src/index.ts`: how `uploadMetadata` turns an animation timeline into the
attribute list of a token's off-chain metadata, how it assembles that
metadata record, and how `main` decides which timeline both uploads get.

A timeline (`KeyframesData`) is a sequence of keyframes; a keyframe is a
sequence of layers (`ImageInfo`: id, url, x, y, rotation, scale). The builder
flattens the timeline keyframe by keyframe and layer by layer and emits, per
layer, one attribute whose `trait_type` is `Image <id> Keyframe <k>` (k the
0-based keyframe index) and whose `value` is the JSON object text
`{"x":X,"y":Y,"rotation":R,"scale":S}` (section 4 of RFC 8259, keys in that
order, as `JSON.stringify` writes them). `main` reads the timeline text from
browser storage; a missing or empty string leaves `keyframesData`
`undefined`, and `keyframesData ?? []` then hands the empty timeline to both
uploads.

Modules, one per concern:

- `Wrappers`: `Option` and `Result`.
- `NumberText`: decimal text of integer-valued numbers, standing in for
  JavaScript's number-to-string conversion, with a reader that inverts it.
- `Timeline`: the generic shape of `flatMap((keyframe, index) => keyframe.map(...))`,
  the offset of each keyframe's block in the flattened list, and the
  position lemmas.
- `Metadata`: `ImageInfo`, `NftData`, `Attribute`, the metadata record, the
  label and value texts, and the attribute list.
- `AttributeText`: reference readers for a label and a value, not part of
  the program; the label and value functions promise that these readers
  give back what they were built from.
- `MintFlow`: the storage lookup, `JSON.parse` outcome and `??` defaulting of
  `main`, and the two metadata records it uploads.

Inputs from outside the program are parameters: the stored string
(`Option<string>`, `None` for the `null` that `getItem` returns), `JSON.parse`
(a function from the text to `Parsed`), and the image URIs the storage
service returns.

`JSON.parse` (src/index.ts:213) has no `try` around it: text that is not
JSON throws out of `main` to the top-level catch (255-258) before any
upload, and nothing falls back to an empty timeline. The model gives
`Failure(ParseError)` and no metadata for it (`Malformed`). A stored text of
`null` is treated like missing data, since `null ?? []` is `[]`; the model
has that case as `ParsedNull`.

## Model

| member | source | states |
|---|---|---|
| `Timeline.MapWithIndex` | src/index.ts:74-77 | `keyframe.map` yields one result per layer, in order, the j-th built from layer j and the keyframe's index |
| `Timeline.FlatMapIndexed` | src/index.ts:73-78 | the flattened list is as long as the sum of the keyframe lengths |
| `Timeline.FlatMapIndexedAt` | src/index.ts:73-78 | item j of keyframe k lands at offset (sum of the lengths of keyframes 0..k-1) + j and is built with index base + k |
| `Timeline.Locate` | src/index.ts:73-78 | every flattened position comes from some valid (keyframe, layer) pair located at that offset |
| `Timeline.PositionInjective` | src/index.ts:73-78 | distinct (keyframe, layer) pairs occupy distinct positions, so no layer is dropped or merged |
| `Timeline.OffsetStep` | src/index.ts:73-74 | the block of keyframe k is followed directly by the block of keyframe k + 1 |
| `Timeline.BlockOrder` | src/index.ts:73-74 | every item of an earlier keyframe precedes every item of a later one |
| `NumberText.IntToString` | src/index.ts:75-76 | the text of an integer reads back, with the independent reader `ParseInt`, as exactly that integer |
| `NumberText.IntToStringShape` | src/index.ts:75-76 | the text of an integer is non-empty, made of digits and a sign, starts with `-` exactly for negative values, and has no redundant leading zero |
| `Metadata.TraitLabel` | src/index.ts:75 | the label reads back, with the reader `ReadLabel` for `Image <id> Keyframe <k>`, as exactly the layer id and keyframe index it was built from |
| `Metadata.TransformJson` | src/index.ts:76 | the value reads back, with the reader `ReadTransform` for `{"x":X,"y":Y,"rotation":R,"scale":S}`, as exactly x, y, rotation and scale of the layer, in that key order and with nothing after |
| `Metadata.LayerAttribute` | src/index.ts:74-77 | the attribute of one layer has a label naming that layer's id and keyframe index and a value giving that layer's transform |
| `Metadata.LabelInjective` | src/index.ts:75 | two labels are equal if and only if their ids and keyframe indices are equal |
| `Metadata.TransformInjective` | src/index.ts:76 | two values are equal if and only if their transforms are equal |
| `Metadata.BuildAttributes` | src/index.ts:73-78 | one attribute per layer: the length is the total layer count, with no filtering |
| `Metadata.EmptyExactlyWhenNoLayers` | src/index.ts:73-78 | the attribute list is empty exactly when every keyframe is empty; an empty timeline gives an empty list |
| `Metadata.AttributeAt` | src/index.ts:73-77 | the attribute at offset(k) + j is the one built from layer j of keyframe k with keyframe index k |
| `Metadata.AttributeFieldsAt` | src/index.ts:73-76 | the attribute at offset(k) + j has label `Image <id of kfs[k][j]> Keyframe <k>` and the transform text of kfs[k][j] |
| `Metadata.AttributeOrigin` | src/index.ts:73-78 | every attribute is the one built from the layer and keyframe its position locates |
| `Metadata.DuplicateIdsKept` | src/index.ts:73-75 | two layers of a keyframe with the same id yield two attributes at different positions with equal labels |
| `Metadata.BuildMetadata` | src/index.ts:81-87 | name, symbol and description are copied from the token data, image is the uploaded image URI, and attributes is exactly the built attribute list, one per layer |
| `Metadata.MetadataIgnoresFeeAndFile` | src/index.ts:81-87 | royalty basis points and image file name do not reach the metadata record |
| `Metadata.TransformIgnoresIdAndUrl` | src/index.ts:76 | the value text depends only on x, y, rotation and scale |
| `Metadata.SingleLayerExample` | src/index.ts:73-76 | the layer {id 1, x 10, y 20, rotation 0, scale 1} alone in keyframe 0 gives exactly `Image 1 Keyframe 0` / `{"x":10,"y":20,"rotation":0,"scale":1}` |
| `MintFlow.LoadKeyframes` | src/index.ts:205-220 | `keyframesData` stays `undefined` exactly when the stored string is missing or empty; otherwise it holds exactly the parsed timeline, or `null` for a parsed `null`, and it is an error exactly when a non-empty string fails to parse |
| `MintFlow.KeyframesArgument` | src/index.ts:224 | `keyframesData ?? []` is the empty timeline without stored data or for a stored `null`, the parsed timeline unchanged otherwise, and an error exactly when parsing throws |
| `MintFlow.NonEmptyComesFromStorage` | src/index.ts:205-224 | a non-empty timeline reaches the uploads only when it is exactly what the stored string parsed to |
| `MintFlow.MainUploads` | src/index.ts:224-234 | both records carry the attribute list built from the defaulted timeline (so identical lists), their own name, symbol, description and image URI, and nothing is uploaded when parsing throws |
| `MintFlow.NoDataNoAttributes` | src/index.ts:211-234 | without stored data, or with a stored `null`, both records are built and both attribute lists are empty |
| `MintFlow.AttributesCountStoredLayers` | src/index.ts:211-234 | with a stored timeline the member record has one attribute per stored layer, built from that timeline |

## Left out

- Numbers are `int`. JavaScript numbers are floating point; fractions, `NaN`
  and infinities (which `JSON.stringify` writes as `null`) are not modelled.
- NumberText.IntToString: matches JavaScript's number-to-text only for
  integers of magnitude at most 2^53. Above that, not every integer is a
  JavaScript number, and JavaScript writes the shortest digits that read
  back to the same number, padded with zeros (2^60 is written
  `1152921504606847000`), and exponent form from 10^21 on; the model writes
  every digit exactly.
- `JSON.parse` is a parameter. Valid JSON that is neither `null` nor a
  well-formed timeline is not modelled: for some such text the later
  `flatMap` throws after the image upload (stored text `5`), for other
  text attributes with missing fields are uploaded (stored text
  `[[{"id":1}]]` gives value `{}`).
- Reading the image file, the image upload and the metadata upload
  (src/index.ts:64-70, 81) are calls into the storage SDK; the image URI is a
  parameter and the metadata URI is not modelled.
- Minting and verifying (`createNft`, `createCollectionNft`, src/index.ts:93-145),
  the unused `updateNftUri` (148-172), connection and keypair setup
  (176-192) and the sequencing of those awaited calls: SDK calls with no
  logic of their own.
- `localStorage.getItem` (205) is the `stored` parameter.
- `CollectionNftData.isCollection` and `collectionAuthority`: never read by
  the metadata builder; the collection record is modelled by its `NftData`
  fields only.
- The commented-out calls at 223 and 233, which pass six scalars to an
  `uploadMetadata` signature not defined in this file, and the unused
  globals at 56 are not modelled.
- Console output, explorer URLs and exit codes are observational only.
