/**
  How `process_query` turns an MCP tool result into the text of a `tool`
  message: the non-empty `text` of the content items, in order, joined with
  newlines; `str(result)` only when that join is empty.
*/
module ToolText {
  import opened Wrappers
  import opened McpTypes

  /** The `tool_text_parts` list: the truthy texts of the items, in item order. */
  function TextParts(items: seq<ContentItem>): seq<string>
  {
    if items == [] then []
    else
      var earlier := TextParts(items[..|items| - 1]);
      var last := items[|items| - 1];
      if Truthy(last.text) then earlier + [last.text.value] else earlier
  }

  /**
    The parts are exactly the truthy item texts: each part is the text of
    some item, every truthy item text is a part, and there are no parts
    only when no item has text.
  */
  lemma {:induction false} TextPartsExact(items: seq<ContentItem>)
    ensures |TextParts(items)| <= |items|
    ensures forall p :: p in TextParts(items) ==> p != ""
    ensures forall i :: 0 <= i < |items| && Truthy(items[i].text) ==> items[i].text.value in TextParts(items)
    ensures forall p :: p in TextParts(items) ==> exists i :: 0 <= i < |items| && items[i].text == Some(p)
    ensures TextParts(items) == [] <==> forall i :: 0 <= i < |items| ==> !Truthy(items[i].text)
  {
    if items != [] {
      var init := items[..|items| - 1];
      TextPartsExact(init);
      forall p | p in TextParts(items)
        ensures exists i :: 0 <= i < |items| && items[i].text == Some(p)
      {
        if p in TextParts(init) {
          var i :| 0 <= i < |init| && init[i].text == Some(p);
          assert items[i] == init[i];
        } else {
          assert items[|items| - 1].text == Some(p);
        }
      }
      forall i | 0 <= i < |items| && Truthy(items[i].text)
        ensures items[i].text.value in TextParts(items)
      {
        if i < |items| - 1 {
          assert init[i] == items[i];
        }
      }
    }
  }

  /**
    The parts are kept in item order with every repetition: the parts of
    two runs of items are the parts of the first run followed by those of
    the second.
  */
  lemma {:induction false} TextPartsInOrder(items: seq<ContentItem>, more: seq<ContentItem>)
    ensures TextParts(items + more) == TextParts(items) + TextParts(more)
    decreases |more|
  {
    if more == [] {
      assert items + more == items;
    } else {
      var init := more[..|more| - 1];
      var whole := items + more;
      TextPartsInOrder(items, init);
      assert whole[..|whole| - 1] == items + init;
      assert whole[|whole| - 1] == more[|more| - 1];
    }
  }

  /** One item contributes its text as a part exactly when that text is truthy. */
  lemma TextPartsSingle(item: ContentItem)
    ensures TextParts([item]) == if Truthy(item.text) then [item.text.value] else []
  {
    assert [item][..0] == [];
  }

  /** Python's `"\n".join(parts)`. */
  function JoinLines(parts: seq<string>): string
  {
    if parts == [] then ""
    else if |parts| == 1 then parts[0]
    else JoinLines(parts[..|parts| - 1]) + "\n" + parts[|parts| - 1]
  }

  /** Joining non-empty parts gives the empty text only when there are no parts. */
  lemma {:induction false} JoinLinesEmpty(parts: seq<string>)
    requires forall p :: p in parts ==> p != ""
    ensures JoinLines(parts) == "" <==> parts == []
  {
    if |parts| > 1 {
      assert parts[|parts| - 1] in parts;
      assert |JoinLines(parts)| >= |parts[|parts| - 1]| > 0;
    } else if |parts| == 1 {
      assert parts[0] in parts;
    }
  }

  /** The text of a tool message: `"\n".join(tool_text_parts) or str(result)`. */
  function Flatten(result: ToolResult): string
  {
    var joined := JoinLines(TextParts(result.content));
    if joined == "" then result.printed else joined
  }

  /**
    `str(result)` is used exactly when no content item has non-empty text;
    otherwise the text is the newline-join of the item texts and is not empty.
  */
  lemma FlattenFallback(result: ToolResult)
    ensures (forall i :: 0 <= i < |result.content| ==> !Truthy(result.content[i].text)) ==>
              Flatten(result) == result.printed
    ensures (exists i :: 0 <= i < |result.content| && Truthy(result.content[i].text)) ==>
              Flatten(result) == JoinLines(TextParts(result.content)) && Flatten(result) != ""
  {
    TextPartsExact(result.content);
    JoinLinesEmpty(TextParts(result.content));
  }

  /** The loop over `result.content`, then the join with its `str(result)` fallback. */
  method FlattenToolText(result: ToolResult) returns (text: string)
    ensures text == Flatten(result)
  {
    var parts: seq<string> := [];
    var k := 0;
    while k < |result.content|
      invariant k <= |result.content|
      invariant parts == TextParts(result.content[..k])
    {
      assert result.content[..k + 1][..k] == result.content[..k];
      var t := result.content[k].text;
      if Truthy(t) {
        parts := parts + [t.value];
      }
      k := k + 1;
    }
    assert result.content[..k] == result.content;
    text := JoinLines(parts);
    if text == "" {
      text := result.printed;
    }
  }
}
