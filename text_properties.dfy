/**
 * The text panel's "add text" action: the new text item takes each field from the form, or a
 * default when the form leaves it unset, is placed by default after the last text item, is
 * appended to the text list, and the form is reset to place the next item 10 seconds later.
 */
module TextProperties {
  import opened Wrappers
  import opened TimelineData

  /** The panel's form: any field of a text item may be unset. */
  datatype TextConfig = TextConfig(
    text: Option<string>,
    positionStart: Option<real>,
    positionEnd: Option<real>,
    x: Option<real>,
    y: Option<real>,
    width: Option<real>,
    height: Option<real>,
    font: Option<string>,
    fontSize: Option<real>,
    color: Option<string>,
    backgroundColor: Option<string>,
    align: Option<string>,
    zIndex: Option<real>,
    opacity: Option<real>,
    rotation: Option<real>,
    fadeInDuration: Option<real>,
    fadeOutDuration: Option<real>,
    animation: Option<string>)

  /** The form the panel starts with. */
  const InitialConfig := TextConfig(
    Some("Example"), Some(0.0), Some(10.0), Some(600.0), Some(500.0), None, None, Some("Arial"),
    Some(200.0), Some("#ff0000"), Some("transparent"), Some("center"), Some(0.0), Some(100.0),
    Some(0.0), None, None, Some("none"))

  /** The form after an item is added, where `lastEnd` is the end of the last item before the add. */
  function ResetConfig(lastEnd: real): (r: TextConfig)
    ensures r.positionStart == Some(lastEnd + 10.0) && r.positionEnd == Some(lastEnd + 20.0)
    ensures r == InitialConfig.(positionStart := Some(lastEnd + 10.0), positionEnd := Some(lastEnd + 20.0), x := Some(500.0), y := Some(600.0))
  {
    TextConfig(
      Some("Example"), Some(lastEnd + 10.0), Some(lastEnd + 20.0), Some(500.0), Some(600.0), None, None,
      Some("Arial"), Some(200.0), Some("#ff0000"), Some("transparent"), Some("center"), Some(0.0),
      Some(100.0), Some(0.0), None, None, Some("none"))
  }

  /** The largest `positionEnd` of the text items, or 0 when there are none. */
  function LastEnd(texts: seq<TextElement>): (r: real)
    ensures forall i :: 0 <= i < |texts| ==> texts[i].positionEnd <= r
    ensures |texts| > 0 ==> exists i :: 0 <= i < |texts| && texts[i].positionEnd == r
    ensures |texts| == 0 ==> r == 0.0
  {
    if |texts| == 0 then 0.0
    else if |texts| == 1 then texts[0].positionEnd
    else
      var rest := LastEnd(texts[1..]);
      assert forall i :: 1 <= i < |texts| ==> texts[i] == texts[1..][i - 1];
      if texts[0].positionEnd >= rest then texts[0].positionEnd else rest
  }

  /** Appending an item raises the last end to that item's end when it is later. */
  lemma LastEndAppend(texts: seq<TextElement>, e: TextElement)
    requires |texts| > 0
    ensures LastEnd(texts + [e]) == if e.positionEnd > LastEnd(texts) then e.positionEnd else LastEnd(texts)
  {
    var s := texts + [e];
    var m := LastEnd(s);
    var k :| 0 <= k < |s| && s[k].positionEnd == m;
    var j :| 0 <= j < |texts| && texts[j].positionEnd == LastEnd(texts);
    assert s[j] == texts[j];
    assert s[|texts|] == e;
    forall i | 0 <= i < |texts| ensures texts[i].positionEnd <= m {
      assert s[i] == texts[i];
    }
    if k < |texts| {
      assert s[k] == texts[k];
    }
  }

  /** The text item built from the form, with `lastEnd` and a fresh id. */
  function NewTextElement(config: TextConfig, lastEnd: real, id: string): TextElement {
    TextElement(
      id,
      config.text.GetOr(""),
      config.positionStart.GetOr(lastEnd),
      config.positionEnd.GetOr(lastEnd + 10.0),
      config.x.GetOr(0.0),
      config.y.GetOr(0.0),
      config.width.GetOr(300.0),
      config.height.GetOr(100.0),
      config.font.GetOr("Arial"),
      Some(config.fontSize.GetOr(24.0)),
      Some(config.color.GetOr("#ffffff")),
      config.backgroundColor.GetOr("transparent"),
      config.align.GetOr("center"),
      config.zIndex.GetOr(0.0),
      config.opacity.GetOr(100.0),
      config.rotation.GetOr(0.0),
      config.fadeInDuration.GetOr(0.0),
      config.fadeOutDuration.GetOr(0.0),
      config.animation.GetOr("none"))
  }

  /** The text list and the form after the action. */
  datatype AddTextResult = AddTextResult(texts: seq<TextElement>, config: TextConfig)

  /**
   * `handleAddText`: the existing items are kept, in order, and one item carrying the fresh id
   * is appended; the form is reset with the last end taken before the add.
   */
  function HandleAddText(texts: seq<TextElement>, config: TextConfig, newId: string): (r: AddTextResult)
    ensures |r.texts| == |texts| + 1
    ensures r.texts[..|texts|] == texts
    ensures r.texts[|texts|].id == newId
    ensures r.texts[|texts|] == NewTextElement(config, LastEnd(texts), newId)
    ensures r.config == ResetConfig(LastEnd(texts))
  {
    var lastEnd := LastEnd(texts);
    AddTextResult(texts + [NewTextElement(config, lastEnd, newId)], ResetConfig(lastEnd))
  }

  /**
   * A field the form sets is copied; an unset one takes its default: the start at the last end,
   * the end 10 seconds later, font size 24, width 300, height 100, opacity 100 and empty text.
   */
  lemma AddTextDefaults(texts: seq<TextElement>, config: TextConfig, newId: string)
    ensures var e := HandleAddText(texts, config, newId).texts[|texts|];
      && (config.positionStart == None ==> e.positionStart == LastEnd(texts))
      && (config.positionStart.Some? ==> e.positionStart == config.positionStart.value)
      && (config.positionEnd == None ==> e.positionEnd == LastEnd(texts) + 10.0)
      && (config.positionEnd.Some? ==> e.positionEnd == config.positionEnd.value)
      && (config.fontSize == None ==> e.fontSize == Some(24.0))
      && (config.width == None ==> e.width == 300.0)
      && (config.height == None ==> e.height == 100.0)
      && (config.opacity == None ==> e.opacity == 100.0)
      && (config.text == None ==> e.text == "")
      && (config.text.Some? ==> e.text == config.text.value)
  {}

  /**
   * With the default window, the new item starts no earlier than any existing item ends and
   * lasts 10 seconds, and it becomes the last item.
   */
  lemma AddTextAfterLast(texts: seq<TextElement>, config: TextConfig, newId: string)
    requires config.positionStart == None && config.positionEnd == None
    ensures var r := HandleAddText(texts, config, newId).texts;
      && (forall i :: 0 <= i < |texts| ==> texts[i].positionEnd <= r[|texts|].positionStart)
      && r[|texts|].positionEnd - r[|texts|].positionStart == 10.0
      && LastEnd(r) == LastEnd(texts) + 10.0
  {
    var r := HandleAddText(texts, config, newId).texts;
    assert r == texts + [r[|texts|]];
    if |texts| > 0 {
      LastEndAppend(texts, r[|texts|]);
    } else {
      assert r == [r[0]];
    }
  }

  /** Adding with the reset form starts the next item 10 seconds after the last end seen by the previous add. */
  lemma NextAddUsesReset(texts: seq<TextElement>, config: TextConfig, id1: string, id2: string)
    ensures var first := HandleAddText(texts, config, id1);
      var second := HandleAddText(first.texts, first.config, id2);
      && second.texts[|texts| + 1].positionStart == LastEnd(texts) + 10.0
      && second.texts[|texts| + 1].positionEnd == LastEnd(texts) + 20.0
  {
    var first := HandleAddText(texts, config, id1);
    var reset := ResetConfig(LastEnd(texts));
    assert first.config == reset;
    var e := HandleAddText(first.texts, reset, id2).texts[|texts| + 1];
    assert e == NewTextElement(reset, LastEnd(first.texts), id2);
  }

  /** A fresh id keeps the ids of the text list distinct. */
  lemma AddTextKeepsIdsDistinct(texts: seq<TextElement>, config: TextConfig, newId: string)
    requires forall i, j :: 0 <= i < j < |texts| ==> texts[i].id != texts[j].id
    requires forall i :: 0 <= i < |texts| ==> texts[i].id != newId
    ensures var r := HandleAddText(texts, config, newId).texts;
      forall i, j :: 0 <= i < j < |r| ==> r[i].id != r[j].id
  {
    var r := HandleAddText(texts, config, newId).texts;
    assert forall i :: 0 <= i < |texts| ==> r[i] == texts[i];
  }
}
