/** Server-Sent Event framing: one `event:` line, one `data:` line, one blank line. */
module Sse {
  import opened Wrappers
  import opened Strings
  import opened Json

  /** `${JSON.stringify(data)}`; `undefined` has no JSON text and prints as the word. */
  function DataText(data: Option<Json>): string {
    match data
    case Some(j) => Stringify(j)
    case None => "undefined"
  }

  /** The whole text of one event. */
  function Message(eventType: string, data: Option<Json>): string {
    "event: " + eventType + "\ndata: " + DataText(data) + "\n\n"
  }

  /** The queue of a `ReadableStreamDefaultController`: every chunk enqueued so far. */
  class Controller {
    var chunks: seq<string>

    constructor ()
      ensures chunks == []
    {
      chunks := [];
    }

    method Enqueue(chunk: string)
      modifies this
      ensures chunks == old(chunks) + [chunk]
    {
      chunks := chunks + [chunk];
    }
  }

  /** `enqueueSSE`: frames one event and enqueues it as a single chunk. */
  method EnqueueSse(controller: Controller, eventType: string, data: Option<Json>)
    modifies controller
    ensures controller.chunks == old(controller.chunks) + [Message(eventType, data)]
  {
    var message := "event: " + eventType + "\ndata: " + DataText(data) + "\n\n";
    controller.Enqueue(message);
  }

  /** The data text never contains a line break, whatever strings the payload holds. */
  lemma DataTextOneLine(data: Option<Json>)
    ensures '\n' !in DataText(data)
  {
    if data.Some? {
      StringifyPrintable(data.value);
    }
  }

  /**
   * A message reads back, line by line, as exactly its `event:` line, its `data:`
   * line and the blank line that ends the event.
   */
  lemma MessageLines(eventType: string, data: Option<Json>)
    requires '\n' !in eventType
    ensures Split(Message(eventType, data), '\n')
         == ["event: " + eventType, "data: " + DataText(data), "", ""]
  {
    var ev := "event: " + eventType;
    var dl := "data: " + DataText(data);
    DataTextOneLine(data);
    MessageShape(eventType, data);
    SplitTwoLinesAndBlank(ev, dl, '\n');
  }

  lemma MessageShape(eventType: string, data: Option<Json>)
    ensures Message(eventType, data) == ("event: " + eventType) + ['\n'] + ("data: " + DataText(data)) + ['\n', '\n']
  {
    var ev := "event: " + eventType;
    assert "\ndata: " == ['\n'] + "data: ";
    AppendAssoc(ev, ['\n'], "data: ");
    AppendAssoc(ev + ['\n'], "data: ", DataText(data));
  }

  /** `null` is framed as `data: null`, `undefined` as `data: undefined`. */
  lemma NullAndUndefinedData(eventType: string)
    ensures Message(eventType, Some(JNull)) == "event: " + eventType + "\ndata: null\n\n"
    ensures Message(eventType, None) == "event: " + eventType + "\ndata: undefined\n\n"
  {
  }

  /** The framing of a one-member object with plain strings, as a client sees it on the wire. */
  lemma SingleMemberFrame(eventType: string, k: string, v: string)
    requires PlainString(k) && PlainString(v)
    ensures Message(eventType, Some(JObject([Member(k, JString(v))])))
         == "event: " + eventType + "\ndata: {\"" + k + "\":\"" + v + "\"}\n\n"
  {
    StringifyPlainMember(k, v);
    var head := "event: " + eventType;
    assert Message(eventType, Some(JObject([Member(k, JString(v))])))
        == head + "\ndata: " + ("{\"" + k + "\":\"" + v + "\"}") + "\n\n";
    Regroup(head, "\ndata: ", "{\"", k, "\":\"", v, "\"}", "\n\n");
    assert "\ndata: " + "{\"" == "\ndata: {\"";
    assert "\"}" + "\n\n" == "\"}\n\n";
  }

  lemma Regroup<T>(a: seq<T>, b: seq<T>, c: seq<T>, k: seq<T>, m: seq<T>, v: seq<T>, n: seq<T>, s: seq<T>)
    ensures a + b + (c + k + m + v + n) + s == a + (b + c) + k + m + v + (n + s)
  {
  }

  /** Arrays are framed compactly: `data: [1,2,3]`. */
  lemma ArrayFrame(eventType: string)
    ensures Message(eventType, Some(JArray([JNumber(1), JNumber(2), JNumber(3)])))
         == "event: " + eventType + "\ndata: [1,2,3]\n\n"
  {
    StringifySmallArray();
  }

  lemma StringifySmallArray()
    ensures Stringify(JArray([JNumber(1), JNumber(2), JNumber(3)])) == "[1,2,3]"
  {
    var items := [JNumber(1), JNumber(2), JNumber(3)];
    var parts := seq(|items|, i requires 0 <= i < |items| => Stringify(items[i]));
    assert parts == ["1", "2", "3"];
    assert parts[..2] == ["1", "2"];
    assert ["1", "2"][..1] == ["1"];
    assert Join(parts, ",") == "1,2,3";
  }
}
