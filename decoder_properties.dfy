/**
 * What the first-match decoding of `BlockData` implies for payloads that fit
 * several shapes, fit none, carry extra keys, or sit in a block whose `type`
 * tag says something else; and how block failures reach the screen.
 */
module DecoderProperties {
  import opened Wrappers
  import opened Json
  import opened Models

  /** Every key some shape declares. */
  const ALL_DECLARED_KEYS: set<string> :=
    DeclaredKeys(ImageShape) + DeclaredKeys(HeaderShape) + DeclaredKeys(ButtonShape) +
    DeclaredKeys(ParagraphShape) + DeclaredKeys(ListShape)

  /**
   * The converse of `DecodeBlockData`'s contract: a shape the payload fits,
   * with no earlier shape fitting, is exactly what decoding yields.
   */
  lemma EarliestFitIsDecoded(v: JValue, s: Shape)
    requires Fits(v, s)
    requires forall i :: 0 <= i < Rank(s) ==> !Fits(v, DECODE_ORDER[i])
    ensures DecodeBlockData(v) == Ok(Build(v, s))
  {
  }

  /** Decoding fails exactly when the payload fits none of the five shapes. */
  lemma FailsIffNothingFits(v: JValue)
    ensures DecodeBlockData(v).Err? <==> forall s: Shape :: !Fits(v, s)
    ensures DecodeBlockData(v).Err? ==> DecodeBlockData(v).error == INVALID_BLOCK_DATA
  {
  }

  /** The paragraph shape is contained in both the header and the button shapes. */
  lemma ParagraphIsLooserThanHeaderAndButton(v: JValue)
    ensures Fits(v, HeaderShape) ==> Fits(v, ParagraphShape)
    ensures Fits(v, ButtonShape) ==> Fits(v, ParagraphShape)
  {
  }

  /** A string `text` with an integer `level` is never read as a paragraph. */
  lemma HeaderIsNeverParagraph(v: JValue)
    requires Fits(v, HeaderShape)
    ensures DecodeBlockData(v).Ok?
    ensures DecodeBlockData(v).value.Header? || DecodeBlockData(v).value.Image?
    ensures !Fits(v, ImageShape) ==>
      DecodeBlockData(v) == Ok(Header(HeaderData(v.fields["text"].s, v.fields["level"].n)))
  {
  }

  /** A string `link` with a string `text` is never read as a paragraph. */
  lemma ButtonIsNeverParagraph(v: JValue)
    requires Fits(v, ButtonShape)
    ensures DecodeBlockData(v).Ok?
    ensures DecodeBlockData(v).value.Button? || DecodeBlockData(v).value.Header? ||
            DecodeBlockData(v).value.Image?
    ensures !Fits(v, ImageShape) && !Fits(v, HeaderShape) ==>
      DecodeBlockData(v) == Ok(Button(ButtonData(v.fields["link"].s, v.fields["text"].s)))
  {
  }

  /** A string `text` without an integer `level` or a string `link` is a paragraph. */
  lemma TextAloneIsParagraph(v: JValue)
    requires Fits(v, ParagraphShape) && !Fits(v, ImageShape)
    requires !HasInt(v.fields, "level") && !HasString(v.fields, "link")
    ensures DecodeBlockData(v) == Ok(Paragraph(ParagraphData(v.fields["text"].s)))
  {
  }

  /** A list payload that also has a string `text` is read as a paragraph. */
  lemma ParagraphBeatsList(v: JValue)
    requires Fits(v, ListShape) && Fits(v, ParagraphShape)
    requires !Fits(v, ImageShape) && !Fits(v, HeaderShape) && !Fits(v, ButtonShape)
    ensures DecodeBlockData(v) == Ok(Paragraph(ParagraphData(v.fields["text"].s)))
  {
  }

  /** A list is decoded only when every element of `items` is a string. */
  lemma ListNeedsStringItems(v: JValue, k: nat)
    requires v.JObject? && "items" in v.fields && v.fields["items"].JArray?
    requires k < |v.fields["items"].items| && !v.fields["items"].items[k].JString?
    ensures DecodeListData(v).Err?
    ensures DecodeBlockData(v).Ok? ==> !DecodeBlockData(v).value.List?
  {
  }

  /** Whether a payload fits a shape depends only on the keys that shape declares. */
  lemma FitsReadsOnlyDeclaredKeys(o: map<string, JValue>, p: map<string, JValue>, s: Shape)
    requires forall key :: key in DeclaredKeys(s) ==> (key in o <==> key in p)
    requires forall key :: key in DeclaredKeys(s) && key in o ==> o[key] == p[key]
    ensures Fits(JObject(o), s) <==> Fits(JObject(p), s)
    ensures Fits(JObject(o), s) ==> Build(JObject(o), s) == Build(JObject(p), s)
  {
  }

  /** A key that no shape declares never changes how a payload decodes. */
  lemma UndeclaredKeyIsIgnored(o: map<string, JValue>, key: string, x: JValue)
    requires key !in ALL_DECLARED_KEYS
    ensures DecodeBlockData(JObject(o[key := x])) == DecodeBlockData(JObject(o))
  {
  }

  /**
   * The `type` tag never selects the variant: any two recognised tags give the
   * same outcome, and the same `data`, for the same block payload.
   */
  lemma TypeTagDoesNotSelectVariant(o: map<string, JValue>, t: BlockType, u: BlockType)
    ensures DecodeBlock(JObject(o["type" := JString(RawValue(t))])).Ok? <==>
            DecodeBlock(JObject(o["type" := JString(RawValue(u))])).Ok?
    ensures DecodeBlock(JObject(o["type" := JString(RawValue(t))])).Ok? ==>
            DecodeBlock(JObject(o["type" := JString(RawValue(t))])).value.data ==
            DecodeBlock(JObject(o["type" := JString(RawValue(u))])).value.data
  {
  }

  /** A tag outside the five raw values fails the block, whatever its data. */
  lemma UnknownTypeTagFails(o: map<string, JValue>, raw: string)
    requires forall t: BlockType :: RawValue(t) != raw
    ensures DecodeBlock(JObject(o["type" := JString(raw)])).Err?
  {
  }

  /** A block tagged "image" whose data is `{"text": "hi"}` decodes with paragraph data. */
  lemma TagAndVariantMayDisagree()
    ensures DecodeBlock(JObject(map[
              "id" := JString("b1"), "type" := JString("image"),
              "data" := JObject(map["text" := JString("hi")])])) ==
            Ok(Block("b1", ImageType, Paragraph(ParagraphData("hi"))))
  {
  }

  /** One block that fails to decode makes the whole screen fail. */
  lemma BadBlockFailsScreen(v: JValue, k: nat)
    requires v.JObject? && "content" in v.fields
    requires var c := v.fields["content"];
      c.JObject? && "blocks" in c.fields && c.fields["blocks"].JArray? &&
      k < |c.fields["blocks"].items| && DecodeBlock(c.fields["blocks"].items[k]).Err?
    ensures DecodeScreen(v).Err?
  {
  }

  /** A decoded screen holds one block per payload entry, in payload order. */
  lemma ScreenKeepsBlockOrder(v: JValue)
    requires DecodeScreen(v).Ok?
    ensures var items := v.fields["content"].fields["blocks"].items;
      var blocks := DecodeScreen(v).value.content.blocks;
      |blocks| == |items| &&
      forall i :: 0 <= i < |items| ==> DecodeBlock(items[i]) == Ok(blocks[i])
  {
  }

  /** A one-header screen decodes with that header, its tag and its screen fields. */
  lemma WelcomeScreenDecodes()
    ensures DecodeScreen(JObject(map[
              "id" := JNumber(1), "name" := JString("S"),
              "content" := JObject(map[
                "time" := JNumber(1), "version" := JString("1.0"),
                "blocks" := JArray([JObject(map[
                  "id" := JString("b1"), "type" := JString("header"),
                  "data" := JObject(map["text" := JString("Welcome"), "level" := JNumber(1)])])])])])) ==
            Ok(Screen(1, "S", ScreenContent(1, [Block("b1", HeaderType, Header(HeaderData("Welcome", 1)))], "1.0")))
  {
    var data := JObject(map["text" := JString("Welcome"), "level" := JNumber(1)]);
    var header := Block("b1", HeaderType, Header(HeaderData("Welcome", 1)));
    assert !Fits(data, ImageShape);
    HeaderIsNeverParagraph(data);
    var block := JObject(map["id" := JString("b1"), "type" := JString("header"), "data" := data]);
    assert DecodeBlock(block) == Ok(header);
    var blocks := DecodeBlocks([block]);
    assert [block][0] == block;
    assert blocks.Ok? && blocks.value[0] == header;
    assert blocks.value == [header];
    var content := JObject(map[
      "time" := JNumber(1), "version" := JString("1.0"), "blocks" := JArray([block])]);
    assert DecodeScreenContent(content) == Ok(ScreenContent(1, [header], "1.0"));
  }
}
