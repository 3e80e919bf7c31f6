/** The part of `main` in src/index.ts that decides what `uploadMetadata` is
    given: the keyframes read from browser storage, defaulted with
    `keyframesData ?? []`, and the two descriptive records of the collection
    token and the member token. */
module MintFlow {
  import opened Wrappers
  import opened Timeline
  import opened Metadata

  /** What `JSON.parse` makes of the stored text: a timeline, the JSON literal
      `null`, or an exception (`Malformed`) for text that is not JSON. Valid
      JSON that is neither `null` nor a well-formed timeline is outside this
      model. */
  datatype Parsed = ParsedTimeline(kfs: KeyframesData) | ParsedNull | Malformed

  /** A JavaScript value that may be `undefined` or `null`. */
  datatype Nullish<T> = Undefined | Null | Defined(value: T)

  /** The exception `JSON.parse` throws on text that is not JSON; nothing in
      `main` catches it before the top-level handler, so no upload happens. */
  datatype LoadError = ParseError

  /** The collection token's descriptive fields (src/index.ts:194-199). */
  const CollectionData: NftData := NftData("TestCollectionNFT", "TEST", "Test Description Collection", 100, "pink.png")

  /** The member token's descriptive fields (src/index.ts:41-47). */
  const MemberData: NftData := NftData("Name", "SYMBOL", "Description", 0, "pink.png")

  /** `if (keyframesDataString)`: `getItem` gave a non-empty string. */
  predicate Truthy(stored: Option<string>) {
    stored.Some? && stored.value != ""
  }

  /** The value of `keyframesData` after the if/else of src/index.ts:208-220. */
  function LoadKeyframes(stored: Option<string>, parse: string -> Parsed): (r: Result<Nullish<KeyframesData>, LoadError>)
    ensures r.Failure? <==> Truthy(stored) && parse(stored.value).Malformed?
    ensures r == Success(Undefined) <==> !Truthy(stored)
    ensures Truthy(stored) && parse(stored.value).ParsedTimeline? ==> r == Success(Defined(parse(stored.value).kfs))
    ensures Truthy(stored) && parse(stored.value).ParsedNull? ==> r == Success(Null)
  {
    if Truthy(stored) then
      match parse(stored.value)
      case ParsedTimeline(kfs) => Success(Defined(kfs))
      case ParsedNull => Success(Null)
      case Malformed => Failure(ParseError)
    else Success(Undefined)
  }

  /** `v ?? d`: `d` for `undefined` and `null`, `v` itself otherwise. */
  function Coalesce<T>(v: Nullish<T>, d: T): (r: T) {
    match v
    case Defined(x) => x
    case _ => d
  }

  /** The timeline passed to both `uploadMetadata` calls (src/index.ts:224, 234):
      the empty one without stored data or for a stored `null`, the parsed
      timeline unchanged otherwise, and an error exactly when parsing throws. */
  function KeyframesArgument(stored: Option<string>, parse: string -> Parsed): (r: Result<KeyframesData, LoadError>)
    ensures !Truthy(stored) ==> r == Success([])
    ensures Truthy(stored) && parse(stored.value).ParsedTimeline? ==> r == Success(parse(stored.value).kfs)
    ensures Truthy(stored) && parse(stored.value).ParsedNull? ==> r == Success([])
    ensures r.Failure? <==> Truthy(stored) && parse(stored.value).Malformed?
  {
    var v :- LoadKeyframes(stored, parse);
    Success(Coalesce(v, []))
  }

  /** The two metadata documents `main` uploads, collection first, given the
      URIs the two image uploads return. */
  datatype Uploads = Uploads(collection: MetadataDoc, member: MetadataDoc)

  function MainUploads(stored: Option<string>, parse: string -> Parsed, collectionImageUri: string, memberImageUri: string): (r: Result<Uploads, LoadError>)
    ensures r.Failure? <==> Truthy(stored) && parse(stored.value).Malformed?
    ensures r.Success? ==> r.value.collection.attributes == r.value.member.attributes
    ensures r.Success? ==> KeyframesArgument(stored, parse).Success?
    ensures r.Success? ==> r.value.member.attributes == BuildAttributes(KeyframesArgument(stored, parse).value)
    ensures r.Success? ==> r.value.collection.name == CollectionData.name && r.value.member.name == MemberData.name
    ensures r.Success? ==> r.value.collection.image == collectionImageUri && r.value.member.image == memberImageUri
    ensures r.Success? ==> r.value.collection.symbol == CollectionData.symbol && r.value.collection.description == CollectionData.description
    ensures r.Success? ==> r.value.member.symbol == MemberData.symbol && r.value.member.description == MemberData.description
  {
    var kfs :- KeyframesArgument(stored, parse);
    Success(Uploads(BuildMetadata(CollectionData, collectionImageUri, kfs), BuildMetadata(MemberData, memberImageUri, kfs)))
  }

  /** A non-empty timeline reaches the uploads only from a stored string that
      parsed to exactly that timeline; no default is invented. */
  lemma NonEmptyComesFromStorage(stored: Option<string>, parse: string -> Parsed, kfs: KeyframesData)
    requires KeyframesArgument(stored, parse) == Success(kfs) && kfs != []
    ensures Truthy(stored) && parse(stored.value) == ParsedTimeline(kfs)
  {
  }

  /** Without stored data, or with a stored `null`, both tokens get an empty
      attribute list. */
  lemma NoDataNoAttributes(stored: Option<string>, parse: string -> Parsed, collectionImageUri: string, memberImageUri: string)
    requires !Truthy(stored) || parse(stored.value).ParsedNull?
    ensures MainUploads(stored, parse, collectionImageUri, memberImageUri).Success?
    ensures MainUploads(stored, parse, collectionImageUri, memberImageUri).value.collection.attributes == []
    ensures MainUploads(stored, parse, collectionImageUri, memberImageUri).value.member.attributes == []
  {
  }

  /** With stored data both tokens carry one attribute per stored layer. */
  lemma AttributesCountStoredLayers(stored: Option<string>, parse: string -> Parsed, collectionImageUri: string, memberImageUri: string)
    requires Truthy(stored) && parse(stored.value).ParsedTimeline?
    ensures MainUploads(stored, parse, collectionImageUri, memberImageUri).Success?
    ensures |MainUploads(stored, parse, collectionImageUri, memberImageUri).value.member.attributes|
      == TotalLength(parse(stored.value).kfs)
    ensures MainUploads(stored, parse, collectionImageUri, memberImageUri).value.member.attributes
      == BuildAttributes(parse(stored.value).kfs)
  {
  }
}
