/**
 * The onboarding screen's data model and its decoding from JSON: the
 * records `Screen`, `ScreenContent` and `Block`, the `BlockType` tag, and
 * `BlockData`, whose decoder ignores the tag and tries the five payload
 * shapes in a fixed order, keeping the first one that fits.
 */
module Models {
  import opened Wrappers
  import opened Json

  datatype Screen = Screen(id: int, name: string, content: ScreenContent)

  datatype ScreenContent = ScreenContent(time: int, blocks: seq<Block>, version: string)

  datatype BlockType = ImageType | HeaderType | ParagraphType | ListType | ButtonType

  datatype Block = Block(id: string, blockType: BlockType, data: BlockData)

  datatype BlockData =
    | Image(image: ImageData)
    | Header(header: HeaderData)
    | Paragraph(paragraph: ParagraphData)
    | List(list: ListData)
    | Button(button: ButtonData)

  datatype ImageData = ImageData(url: string, caption: string, withBorder: bool, withBackground: bool, stretched: bool)

  datatype HeaderData = HeaderData(text: string, level: int)

  datatype ParagraphData = ParagraphData(text: string)

  datatype ListData = ListData(style: string, items: seq<string>)

  datatype ButtonData = ButtonData(link: string, text: string)

  // ---------------------------------------------------------------------------
  // The block-type tag: a `String`-backed enum with five raw values.

  function RawValue(t: BlockType): string {
    match t
    case ImageType => "image"
    case HeaderType => "header"
    case ParagraphType => "paragraph"
    case ListType => "list"
    case ButtonType => "button"
  }

  /** `BlockType(rawValue:)`: recognises exactly the five raw values. */
  function ParseBlockType(raw: string): (r: Option<BlockType>)
    ensures r.Some? ==> RawValue(r.value) == raw
    ensures r.None? ==> forall t: BlockType :: RawValue(t) != raw
  {
    if raw == "image" then Some(ImageType)
    else if raw == "header" then Some(HeaderType)
    else if raw == "paragraph" then Some(ParagraphType)
    else if raw == "list" then Some(ListType)
    else if raw == "button" then Some(ButtonType)
    else None
  }

  /** The synthesized decoding of `BlockType` from the string under `key`. */
  function DecodeBlockType(o: map<string, JValue>, key: string): (r: Decoded<BlockType>)
    ensures r.Ok? <==> key in o && o[key].JString? && ParseBlockType(o[key].s).Some?
    ensures r.Ok? ==> RawValue(r.value) == o[key].s
  {
    var raw :- DecodeString(o, key);
    match ParseBlockType(raw)
    case Some(t) => Ok(t)
    case None => Err(DataCorrupted("Cannot initialize BlockType from invalid String value " + raw))
  }

  // ---------------------------------------------------------------------------
  // The five payload shapes, stated as a schema independent of the decoders.

  datatype Shape = ImageShape | HeaderShape | ButtonShape | ParagraphShape | ListShape

  /** The order in which `BlockData` tries the shapes. */
  const DECODE_ORDER: seq<Shape> := [ImageShape, HeaderShape, ButtonShape, ParagraphShape, ListShape]

  /** The position of a shape in `DECODE_ORDER`. */
  function Rank(s: Shape): (i: nat)
    ensures i < |DECODE_ORDER| && DECODE_ORDER[i] == s
  {
    match s
    case ImageShape => 0
    case HeaderShape => 1
    case ButtonShape => 2
    case ParagraphShape => 3
    case ListShape => 4
  }

  /** The shape a decoded payload has. */
  function ShapeOf(d: BlockData): Shape {
    match d
    case Image(_) => ImageShape
    case Header(_) => HeaderShape
    case Paragraph(_) => ParagraphShape
    case List(_) => ListShape
    case Button(_) => ButtonShape
  }

  predicate HasString(o: map<string, JValue>, key: string) {
    key in o && o[key].JString?
  }

  predicate HasInt(o: map<string, JValue>, key: string) {
    key in o && o[key].JNumber? && FitsInt(o[key].n)
  }

  predicate HasBool(o: map<string, JValue>, key: string) {
    key in o && o[key].JBool?
  }

  predicate HasStringArray(o: map<string, JValue>, key: string) {
    key in o && o[key].JArray? && forall i :: 0 <= i < |o[key].items| ==> o[key].items[i].JString?
  }

  /**
   * A payload fits a shape when it is an object holding every field the shape
   * declares, with the declared type. Other keys do not matter.
   */
  predicate Fits(v: JValue, s: Shape) {
    v.JObject? &&
    var o := v.fields;
    match s
    case ImageShape =>
      HasString(o, "url") && HasString(o, "caption") &&
      HasBool(o, "withBorder") && HasBool(o, "withBackground") && HasBool(o, "stretched")
    case HeaderShape => HasString(o, "text") && HasInt(o, "level")
    case ButtonShape => HasString(o, "link") && HasString(o, "text")
    case ParagraphShape => HasString(o, "text")
    case ListShape => HasString(o, "style") && HasStringArray(o, "items")
  }

  /** The keys a shape declares. */
  function DeclaredKeys(s: Shape): set<string> {
    match s
    case ImageShape => {"url", "caption", "withBorder", "withBackground", "stretched"}
    case HeaderShape => {"text", "level"}
    case ButtonShape => {"link", "text"}
    case ParagraphShape => {"text"}
    case ListShape => {"style", "items"}
  }

  /** The payload a fitting object denotes, read straight from its fields. */
  function Build(v: JValue, s: Shape): (d: BlockData)
    requires Fits(v, s)
    ensures ShapeOf(d) == s
  {
    var o := v.fields;
    match s
    case ImageShape =>
      Image(ImageData(o["url"].s, o["caption"].s, o["withBorder"].b, o["withBackground"].b, o["stretched"].b))
    case HeaderShape => Header(HeaderData(o["text"].s, o["level"].n))
    case ButtonShape => Button(ButtonData(o["link"].s, o["text"].s))
    case ParagraphShape => Paragraph(ParagraphData(o["text"].s))
    case ListShape => List(ListData(o["style"].s, seq(|o["items"].items|, i requires 0 <= i < |o["items"].items| => o["items"].items[i].s)))
  }

  // ---------------------------------------------------------------------------
  // The synthesized decoders of the five payload structs.

  function DecodeImageData(v: JValue): (r: Decoded<ImageData>)
    ensures r.Ok? <==> Fits(v, ImageShape)
    ensures r.Ok? ==> Image(r.value) == Build(v, ImageShape)
  {
    var o :- KeyedContainer(v, "ImageData");
    var url :- DecodeString(o, "url");
    var caption :- DecodeString(o, "caption");
    var withBorder :- DecodeBool(o, "withBorder");
    var withBackground :- DecodeBool(o, "withBackground");
    var stretched :- DecodeBool(o, "stretched");
    Ok(ImageData(url, caption, withBorder, withBackground, stretched))
  }

  function DecodeHeaderData(v: JValue): (r: Decoded<HeaderData>)
    ensures r.Ok? <==> Fits(v, HeaderShape)
    ensures r.Ok? ==> Header(r.value) == Build(v, HeaderShape)
  {
    var o :- KeyedContainer(v, "HeaderData");
    var text :- DecodeString(o, "text");
    var level :- DecodeInt(o, "level");
    Ok(HeaderData(text, level))
  }

  function DecodeParagraphData(v: JValue): (r: Decoded<ParagraphData>)
    ensures r.Ok? <==> Fits(v, ParagraphShape)
    ensures r.Ok? ==> Paragraph(r.value) == Build(v, ParagraphShape)
  {
    var o :- KeyedContainer(v, "ParagraphData");
    var text :- DecodeString(o, "text");
    Ok(ParagraphData(text))
  }

  function DecodeListData(v: JValue): (r: Decoded<ListData>)
    ensures r.Ok? <==> Fits(v, ListShape)
    ensures r.Ok? ==> List(r.value) == Build(v, ListShape)
  {
    var o :- KeyedContainer(v, "ListData");
    var style :- DecodeString(o, "style");
    var items :- DecodeStrings(o, "items");
    Ok(ListData(style, items))
  }

  function DecodeButtonData(v: JValue): (r: Decoded<ButtonData>)
    ensures r.Ok? <==> Fits(v, ButtonShape)
    ensures r.Ok? ==> Button(r.value) == Build(v, ButtonShape)
  {
    var o :- KeyedContainer(v, "ButtonData");
    var link :- DecodeString(o, "link");
    var text :- DecodeString(o, "text");
    Ok(ButtonData(link, text))
  }

  const INVALID_BLOCK_DATA: DecodeError := DataCorrupted("Invalid block data")

  /**
   * `BlockData.init(from:)`: tries image, header, button, paragraph and list,
   * in that order, discarding each failure, and keeps the first success.
   * The result is the payload of the earliest shape in `DECODE_ORDER` that
   * the value fits; when none fits, decoding fails with "Invalid block data".
   */
  function DecodeBlockData(v: JValue): (r: Decoded<BlockData>)
    ensures r.Ok? <==> exists i :: 0 <= i < |DECODE_ORDER| && Fits(v, DECODE_ORDER[i])
    ensures r.Ok? ==> Fits(v, ShapeOf(r.value)) && r.value == Build(v, ShapeOf(r.value))
    ensures r.Ok? ==> forall i :: 0 <= i < Rank(ShapeOf(r.value)) ==> !Fits(v, DECODE_ORDER[i])
    ensures r.Err? ==> r.error == INVALID_BLOCK_DATA
  {
    var image := DecodeImageData(v);
    var header := DecodeHeaderData(v);
    var button := DecodeButtonData(v);
    var paragraph := DecodeParagraphData(v);
    var list := DecodeListData(v);
    if image.Ok? then assert Fits(v, DECODE_ORDER[0]); Ok(Image(image.value))
    else if header.Ok? then assert Fits(v, DECODE_ORDER[1]); Ok(Header(header.value))
    else if button.Ok? then assert Fits(v, DECODE_ORDER[2]); Ok(Button(button.value))
    else if paragraph.Ok? then assert Fits(v, DECODE_ORDER[3]); Ok(Paragraph(paragraph.value))
    else if list.Ok? then assert Fits(v, DECODE_ORDER[4]); Ok(List(list.value))
    else Err(INVALID_BLOCK_DATA)
  }

  // ---------------------------------------------------------------------------
  // The synthesized decoders of the enclosing records.

  /** `Block`: `id`, then `type`, then `data`; the first failure is the result. */
  function DecodeBlock(v: JValue): (r: Decoded<Block>)
    ensures r.Ok? <==> (v.JObject? && HasString(v.fields, "id") &&
      HasString(v.fields, "type") && ParseBlockType(v.fields["type"].s).Some? &&
      "data" in v.fields && DecodeBlockData(v.fields["data"]).Ok?)
    ensures r.Ok? ==> (r.value.id == v.fields["id"].s &&
      RawValue(r.value.blockType) == v.fields["type"].s &&
      r.value.data == DecodeBlockData(v.fields["data"]).value)
  {
    var o :- KeyedContainer(v, "Block");
    var id :- DecodeString(o, "id");
    var blockType :- DecodeBlockType(o, "type");
    var raw :- Entry(o, "data");
    var data :- DecodeBlockData(raw);
    Ok(Block(id, blockType, data))
  }

  /**
   * `[Block]`: decoded front to back; one block that fails makes the whole
   * array fail with that block's error, otherwise every block is kept in order.
   */
  function DecodeBlocks(items: seq<JValue>): (r: Decoded<seq<Block>>)
    ensures r.Ok? <==> forall i :: 0 <= i < |items| ==> DecodeBlock(items[i]).Ok?
    ensures r.Ok? ==> (|r.value| == |items| &&
      forall i :: 0 <= i < |items| ==> r.value[i] == DecodeBlock(items[i]).value)
    ensures r.Err? ==> exists i :: (0 <= i < |items| && DecodeBlock(items[i]) == Err(r.error) &&
      forall j :: 0 <= j < i ==> DecodeBlock(items[j]).Ok?)
  {
    if items == [] then Ok([])
    else
      var head :- DecodeBlock(items[0]);
      var tail :- DecodeBlocks(items[1..]);
      assert forall i :: 1 <= i < |items| ==> items[i] == items[1..][i - 1];
      Ok([head] + tail)
  }

  /** `ScreenContent`: `time`, then `blocks`, then `version`. */
  function DecodeScreenContent(v: JValue): (r: Decoded<ScreenContent>)
    ensures r.Ok? <==> (v.JObject? && HasInt(v.fields, "time") && HasString(v.fields, "version") &&
      "blocks" in v.fields && v.fields["blocks"].JArray? &&
      DecodeBlocks(v.fields["blocks"].items).Ok?)
    ensures r.Ok? ==> (DecodeBlocks(v.fields["blocks"].items) == Ok(r.value.blocks) &&
      r.value.time == v.fields["time"].n && r.value.version == v.fields["version"].s)
  {
    var o :- KeyedContainer(v, "ScreenContent");
    var time :- DecodeInt(o, "time");
    var raw :- Entry(o, "blocks");
    var items :- UnkeyedContainer(raw, "blocks");
    var blocks :- DecodeBlocks(items);
    var version :- DecodeString(o, "version");
    Ok(ScreenContent(time, blocks, version))
  }

  /** `Screen`: `id`, then `name`, then `content`. */
  function DecodeScreen(v: JValue): (r: Decoded<Screen>)
    ensures r.Ok? <==> (v.JObject? && HasInt(v.fields, "id") && HasString(v.fields, "name") &&
      "content" in v.fields && DecodeScreenContent(v.fields["content"]).Ok?)
    ensures r.Ok? ==> (r.value.id == v.fields["id"].n && r.value.name == v.fields["name"].s &&
      r.value.content == DecodeScreenContent(v.fields["content"]).value)
  {
    var o :- KeyedContainer(v, "Screen");
    var id :- DecodeInt(o, "id");
    var name :- DecodeString(o, "name");
    var raw :- Entry(o, "content");
    var content :- DecodeScreenContent(raw);
    Ok(Screen(id, name, content))
  }
}
