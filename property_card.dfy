/**
 * `PropertyCard`: what one card shows for a property of the list. The JSX is
 * not modelled; a card is the `Card` value of the texts and addresses it
 * renders.
 */
module PropertyCard {
  import opened Wrappers
  import opened Text
  import opened Models
  import opened PropertiesController

  const ImageHost := "http://host.docker.internal:5125"
  const AvatarHost := "http://localhost:5125"
  const Placeholder := "/placeholder-property.svg"

  /** The owner block: the avatar picture when there is one, its fallback
      initials as the UTF-16 code units JavaScript builds them from, and the
      owner's name and address. */
  datatype OwnerBlock = OwnerBlock(avatar: Option<string>, initials: seq<CodeUnit>, name: string, address: string)

  datatype Card = Card(
    href: string,
    imageUrl: string,
    imageAlt: string,
    price: int,
    name: string,
    address: string,
    year: int,
    codeInternal: string,
    latest: Option<string>,
    owner: Option<OwnerBlock>)

  /** The picture: the first image's file on the image host, or the
      placeholder when there is no first image or its file is empty. */
  function ImageUrl(images: seq<PropertyImage>): (r: string)
    ensures images != [] && images[0].file != [] ==> r == ImageHost + images[0].file
    ensures images == [] || images[0].file == [] ==> r == Placeholder
  {
    if images != [] && images[0].file != [] then ImageHost + images[0].file else Placeholder
  }

  /** Only the first image matters. */
  lemma ImageUrlUsesFirstOnly(first: PropertyImage, rest1: seq<PropertyImage>, rest2: seq<PropertyImage>)
    ensures ImageUrl([first] + rest1) == ImageUrl([first] + rest2)
  {
  }

  /** A card shows a stored picture exactly when its first image has a file:
      the placeholder is not an address on the image host. */
  lemma ImageUrlFromHost(images: seq<PropertyImage>)
    ensures (|ImageUrl(images)| >= |ImageHost| && ImageUrl(images)[..|ImageHost|] == ImageHost)
      <==> images != [] && images[0].file != []
  {
    if images == [] || images[0].file == [] {
      assert Placeholder[0] != ImageHost[0];
    } else {
      assert (ImageHost + images[0].file)[..|ImageHost|] == ImageHost;
    }
  }

  /** A property with no enabled image shows the placeholder. */
  lemma NoEnabledImageShowsPlaceholder(store: Store, p: Property)
    requires forall i :: i in store.images && i.propertyId == p.id ==> !i.enabled
    ensures ImageUrl(ToDto(store, p).images) == Placeholder
  {
  }

  /** `'Latest: ' + propertyTraces[0].name`, only when there are traces. */
  function Latest(traces: seq<PropertyTrace>): (r: Option<string>)
    ensures r.Some? <==> traces != []
    ensures r.Some? ==> r.value == traces[0].name
  {
    if traces != [] then Some(traces[0].name) else None
  }

  /** The avatar picture: the photo on the avatar host, or none. */
  function AvatarSource(photo: string): (r: Option<string>)
    ensures r.None? <==> photo == []
    ensures r.Some? ==> r.value == AvatarHost + photo
  {
    if photo != [] then Some(AvatarHost + photo) else None
  }

  /** `parts.map(n => n[0]).join('')`: `n[0]` is the first UTF-16 code unit
      of the part, and an empty part's `n[0]` is `undefined`, which `join`
      writes as nothing. */
  function FirstLetters(parts: seq<string>): (r: seq<CodeUnit>)
    ensures |r| <= |parts|
  {
    if parts == [] then []
    else (if parts[0] == [] then [] else [FirstCodeUnit(parts[0][0])]) + FirstLetters(parts[1..])
  }

  /** The avatar fallback: the first code unit of each space-separated part. */
  function Initials(name: string): seq<CodeUnit> {
    FirstLetters(Split(name, ' '))
  }

  lemma {:induction false} FirstLettersOfWords(words: seq<string>)
    requires forall k :: 0 <= k < |words| ==> words[k] != []
    ensures |FirstLetters(words)| == |words|
    ensures forall k :: 0 <= k < |words| ==> FirstLetters(words)[k] == FirstCodeUnit(words[k][0])
  {
    if words != [] {
      FirstLettersOfWords(words[1..]);
      assert forall k :: 1 <= k < |words| ==> words[1..][k - 1] == words[k];
    }
  }

  /** A name of k non-empty words joined by single spaces has k initials,
      the first code unit of each word in order: the word's first letter
      when it lies below U+10000, otherwise only that letter's high
      surrogate. */
  lemma InitialsOfWords(words: seq<string>)
    requires |words| >= 1
    requires forall k :: 0 <= k < |words| ==> words[k] != [] && ' ' !in words[k]
    ensures |Initials(Join(words, ' '))| == |words|
    ensures forall k :: 0 <= k < |words| ==> Initials(Join(words, ' '))[k] == FirstCodeUnit(words[k][0])
    ensures forall k :: 0 <= k < |words| && words[k][0] as int < 0x1_0000 ==>
      Initials(Join(words, ' '))[k] == words[k][0] as int
    ensures forall k :: 0 <= k < |words| && words[k][0] as int >= 0x1_0000 ==>
      IsHighSurrogate(Initials(Join(words, ' '))[k])
  {
    SplitOfJoin(words, ' ');
    FirstLettersOfWords(words);
  }

  /** An owner called "😀 Smith" gets the lone high surrogate U+D83D and
      then 'S' as initials, not the emoji. */
  lemma AstralInitialIsHalf()
    ensures Initials("\U{1F600} Smith") == [0xD83D, 'S' as int]
  {
    var words := ["\U{1F600}", "Smith"];
    assert words[1..] == ["Smith"];
    assert Join(words, ' ') == "\U{1F600}" + " " + "Smith";
    InitialsOfWords(words);
    assert FirstCodeUnit('\U{1F600}') == 0xD83D;
  }

  /** The owner block, rendered only when the DTO has an owner. */
  function OwnerBlockOf(owner: Option<Owner>): (r: Option<OwnerBlock>)
    ensures r.Some? <==> owner.Some?
    ensures r.Some? ==> r.value.name == owner.value.name && r.value.address == owner.value.address
    ensures r.Some? ==> r.value.avatar == AvatarSource(owner.value.photo) && r.value.initials == Initials(owner.value.name)
  {
    if owner.Some? then
      Some(OwnerBlock(AvatarSource(owner.value.photo), Initials(owner.value.name), owner.value.name, owner.value.address))
    else None
  }

  /** The card: it links to the property's page and shows its own fields,
      the first picture, the latest trace and the owner block. */
  function RenderCard(p: PropertyWithImages): (c: Card)
    ensures c.href == "/properties/" + p.id
    ensures c.name == p.name && c.address == p.address && c.price == p.price
    ensures c.year == p.year && c.codeInternal == p.codeInternal
    ensures c.imageUrl == ImageUrl(p.images)
    ensures c.latest == Latest(p.propertyTraces)
    ensures c.owner == OwnerBlockOf(p.owner)
  {
    Card(
      "/properties/" + p.id,
      ImageUrl(p.images),
      p.name + " - Property Image",
      p.price, p.name, p.address, p.year, p.codeInternal,
      Latest(p.propertyTraces),
      OwnerBlockOf(p.owner))
  }

  /** A card has an owner block exactly when some stored owner carries the
      property's owner id. */
  lemma OwnerBlockShown(store: Store, p: Property)
    ensures RenderCard(ToDto(store, p)).owner.Some? <==> exists o :: o in store.owners && o.id == p.ownerId
  {
    ToDtoFaithful(store, p);
  }
}
