/** The metadata document that `uploadMetadata` in src/index.ts builds: one
    attribute per layer of every keyframe of an animation timeline, plus the
    descriptive fields of the token. */
module Metadata {
  import opened Wrappers
  import opened NumberText
  import opened Timeline
  import opened AttributeText

  /** One animated layer's state at one keyframe. Numbers are integers here. */
  datatype ImageInfo = ImageInfo(id: int, url: string, x: int, y: int, rotation: int, scale: int)

  /** The layers visible at one instant, in layer order. */
  type Keyframe = seq<ImageInfo>

  /** A whole animation timeline, in keyframe order. */
  type KeyframesData = seq<Keyframe>

  /** Descriptive fields of a mintable token. */
  datatype NftData = NftData(
    name: string,
    symbol: string,
    description: string,
    sellerFeeBasisPoints: int,
    imageFile: string)

  /** One `{trait_type, value}` entry of the metadata's attribute list. */
  datatype Attribute = Attribute(trait_type: string, value: string)

  /** The off-chain metadata document handed to the storage service. */
  datatype MetadataDoc = MetadataDoc(
    name: string,
    symbol: string,
    description: string,
    image: string,
    attributes: seq<Attribute>)

  /** The label `Image <id> Keyframe <index>`; it reads back as exactly that
      id and index. */
  function TraitLabel(id: int, keyframeIndex: nat): (s: string)
    ensures ReadLabel(s) == Some((id, keyframeIndex as int))
  {
    var tail := " Keyframe " + IntToString(keyframeIndex);
    ReadFieldOf("Image ", id, tail);
    assert tail == " Keyframe " + IntToString(keyframeIndex) + "";
    ReadFieldOf(" Keyframe ", keyframeIndex, "");
    var s := "Image " + IntToString(id) + " Keyframe " + IntToString(keyframeIndex);
    assert s == "Image " + IntToString(id) + tail;
    s
  }

  /** The four transform numbers of a layer. */
  function TransformOf(info: ImageInfo): (t: Transform) {
    Transform(info.x, info.y, info.rotation, info.scale)
  }

  /** The JSON object text `{"x":X,"y":Y,"rotation":R,"scale":S}` of one layer's
      transform: keys in that order, no white space, `id` and `url` omitted.
      It reads back as exactly the layer's transform. */
  function TransformJson(info: ImageInfo): (s: string)
    ensures ReadTransform(s) == Some(TransformOf(info))
  {
    var sc := ",\"scale\":" + IntToString(info.scale) + "}";
    var ro := ",\"rotation\":" + IntToString(info.rotation) + sc;
    var yy := ",\"y\":" + IntToString(info.y) + ro;
    ReadFieldOf("{\"x\":", info.x, yy);
    ReadFieldOf(",\"y\":", info.y, ro);
    ReadFieldOf(",\"rotation\":", info.rotation, sc);
    ReadFieldOf(",\"scale\":", info.scale, "}");
    var s := "{\"x\":" + IntToString(info.x)
      + ",\"y\":" + IntToString(info.y)
      + ",\"rotation\":" + IntToString(info.rotation)
      + ",\"scale\":" + IntToString(info.scale)
      + "}";
    ConcatRegroup("{\"x\":", IntToString(info.x), ",\"y\":", IntToString(info.y),
      ",\"rotation\":", IntToString(info.rotation), ",\"scale\":", IntToString(info.scale), "}");
    s
  }

  /** Regroups a left-nested concatenation of nine strings to the right; proof
      step for the round trip of `TransformJson`. */
  lemma ConcatRegroup(a: string, b: string, c: string, d: string, e: string, f: string, g: string, h: string, i: string)
    ensures a + b + c + d + e + f + g + h + i == a + b + (c + d + (e + f + (g + h + i)))
  {
  }

  /** The attribute built for one layer of keyframe `keyframeIndex`: its label
      names the layer's id and that index, its value the layer's transform. */
  function LayerAttribute(info: ImageInfo, keyframeIndex: nat): (a: Attribute)
    ensures ReadLabel(a.trait_type) == Some((info.id, keyframeIndex as int))
    ensures ReadTransform(a.value) == Some(TransformOf(info))
  {
    Attribute(TraitLabel(info.id, keyframeIndex), TransformJson(info))
  }

  /** The attribute list of src/index.ts:73-78, keyframe indices counted from 0. */
  function BuildAttributes(kfs: KeyframesData): (r: seq<Attribute>)
    ensures |r| == TotalLength(kfs)
  {
    FlatMapIndexed(kfs, 0, LayerAttribute)
  }

  /** The record passed to the metadata upload, given the URI the image upload returned. */
  function BuildMetadata(nft: NftData, imageUri: string, kfs: KeyframesData): (m: MetadataDoc)
    ensures m.name == nft.name && m.symbol == nft.symbol && m.description == nft.description
    ensures m.image == imageUri
    ensures m.attributes == BuildAttributes(kfs)
    ensures |m.attributes| == TotalLength(kfs)
  {
    MetadataDoc(nft.name, nft.symbol, nft.description, imageUri, BuildAttributes(kfs))
  }

  // ---------------------------------------------------------------------------
  // Length, emptiness and position of each attribute

  /** The list is empty exactly when no keyframe has a layer; in particular an
      empty timeline gives an empty list. */
  lemma {:induction false} EmptyExactlyWhenNoLayers(kfs: KeyframesData)
    ensures BuildAttributes(kfs) == [] <==> forall k :: 0 <= k < |kfs| ==> kfs[k] == []
    ensures kfs == [] ==> BuildAttributes(kfs) == []
  {
    NoElementsIff(kfs);
  }

  /** The attribute at flattened position `Offset(kfs, k) + j` is the one built
      from layer `j` of keyframe `k`. */
  lemma {:induction false} AttributeAt(kfs: KeyframesData, k: nat, j: nat)
    requires k < |kfs| && j < |kfs[k]|
    ensures Offset(kfs, k) + j < |BuildAttributes(kfs)|
    ensures BuildAttributes(kfs)[Offset(kfs, k) + j] == LayerAttribute(kfs[k][j], k)
  {
    FlatMapIndexedAt(kfs, 0, LayerAttribute, k, j);
  }

  /** The label at `Offset(kfs, k) + j` carries the id of `kfs[k][j]` and the
      keyframe index `k`, not the layer position `j`; the value carries the
      transform of that same layer. */
  lemma {:induction false} AttributeFieldsAt(kfs: KeyframesData, k: nat, j: nat)
    requires k < |kfs| && j < |kfs[k]|
    ensures Offset(kfs, k) + j < |BuildAttributes(kfs)|
    ensures BuildAttributes(kfs)[Offset(kfs, k) + j].trait_type == TraitLabel(kfs[k][j].id, k)
    ensures BuildAttributes(kfs)[Offset(kfs, k) + j].value == TransformJson(kfs[k][j])
  {
    AttributeAt(kfs, k, j);
  }

  /** Every attribute comes from some layer of some keyframe. */
  lemma {:induction false} AttributeOrigin(kfs: KeyframesData, i: nat)
    requires i < |BuildAttributes(kfs)|
    ensures var p := Locate(kfs, i);
      BuildAttributes(kfs)[i] == LayerAttribute(kfs[p.0][p.1], p.0)
  {
    var p := Locate(kfs, i);
    AttributeAt(kfs, p.0, p.1);
  }

  /** Two layers of one keyframe with the same id give two attributes at
      different positions with the same label: nothing is merged or dropped. */
  lemma {:induction false} DuplicateIdsKept(kfs: KeyframesData, k: nat, j: nat, j': nat)
    requires k < |kfs| && j < j' < |kfs[k]| && kfs[k][j].id == kfs[k][j'].id
    ensures Offset(kfs, k) + j < Offset(kfs, k) + j' < |BuildAttributes(kfs)|
    ensures BuildAttributes(kfs)[Offset(kfs, k) + j].trait_type
         == BuildAttributes(kfs)[Offset(kfs, k) + j'].trait_type
  {
    AttributeAt(kfs, k, j);
    AttributeAt(kfs, k, j');
  }

  // ---------------------------------------------------------------------------
  // The metadata record

  /** Only name, symbol, description, the image URI and the timeline reach the
      document: the royalty basis points and the image file name do not. */
  lemma MetadataIgnoresFeeAndFile(a: NftData, b: NftData, imageUri: string, kfs: KeyframesData)
    requires a.name == b.name && a.symbol == b.symbol && a.description == b.description
    ensures BuildMetadata(a, imageUri, kfs) == BuildMetadata(b, imageUri, kfs)
  {
  }

  /** The transform text does not depend on `id` or `url`. */
  lemma TransformIgnoresIdAndUrl(a: ImageInfo, b: ImageInfo)
    requires a.x == b.x && a.y == b.y && a.rotation == b.rotation && a.scale == b.scale
    ensures TransformJson(a) == TransformJson(b)
  {
  }

  /** One layer in keyframe 0 gives one attribute with the label and JSON text below. */
  lemma SingleLayerExample()
    ensures BuildAttributes([[ImageInfo(1, "a", 10, 20, 0, 1)]])
      == [Attribute("Image 1 Keyframe 0", "{\"x\":10,\"y\":20,\"rotation\":0,\"scale\":1}")]
  {
    var kfs := [[ImageInfo(1, "a", 10, 20, 0, 1)]];
    AttributeAt(kfs, 0, 0);
    assert kfs[..0] == [];
    assert TotalLength(kfs) == 1 by {
      assert kfs[1..] == [];
    }
    ExampleLabel();
    ExampleValue();
  }

  /** Two labels are equal exactly when their ids and keyframe indices are;
      repeated ids in one keyframe are not told apart. */
  lemma LabelInjective(id: int, k: nat, id': int, k': nat)
    ensures TraitLabel(id, k) == TraitLabel(id', k') <==> id == id' && k == k'
  {
    if TraitLabel(id, k) == TraitLabel(id', k') {
      assert ReadLabel(TraitLabel(id, k)) == ReadLabel(TraitLabel(id', k'));
    }
  }

  /** Two values are equal exactly when their transforms are. */
  lemma TransformInjective(a: ImageInfo, b: ImageInfo)
    ensures TransformJson(a) == TransformJson(b) <==> TransformOf(a) == TransformOf(b)
  {
    if TransformJson(a) == TransformJson(b) {
      assert ReadTransform(TransformJson(a)) == ReadTransform(TransformJson(b));
    }
  }

  lemma ExampleLabel()
    ensures TraitLabel(1, 0) == "Image 1 Keyframe 0"
  {
    assert IntToString(0) == "0" && IntToString(1) == "1";
    assert TraitLabel(1, 0) == "Image " + "1" + " Keyframe " + "0";
    JoinedExampleLabel();
  }

  /** Proof step for `ExampleLabel`: the literal pieces join to the expected text. */
  lemma JoinedExampleLabel()
    ensures "Image " + "1" + " Keyframe " + "0" == "Image 1 Keyframe 0"
  {
  }

  lemma ExampleValue()
    ensures TransformJson(ImageInfo(1, "a", 10, 20, 0, 1)) == "{\"x\":10,\"y\":20,\"rotation\":0,\"scale\":1}"
  {
    assert IntToString(0) == "0" && IntToString(1) == "1";
    assert IntToString(10) == "10" by {
      assert NatToString(10) == NatToString(1) + [DigitChar(0)];
    }
    assert IntToString(20) == "20" by {
      assert NatToString(20) == NatToString(2) + [DigitChar(0)];
    }
    JoinedExampleValue();
  }

  /** Proof step for `ExampleValue`: the literal pieces join to the expected text. */
  lemma JoinedExampleValue()
    ensures "{\"x\":" + "10" + ",\"y\":" + "20" + ",\"rotation\":" + "0" + ",\"scale\":" + "1" + "}"
      == "{\"x\":10,\"y\":20,\"rotation\":0,\"scale\":1}"
  {
  }
}
