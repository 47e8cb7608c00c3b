/** The append-prompts function: every day it posts the journaling prompt to the write-to-entry
    endpoint, preceded on the first day of the month by the monthly reflection prompt. The day
    of the month is an input, written as the decimal string the date library formats. */
module Prompts {
  import opened Wrappers
  import opened Blocks
  import WriteToEntry

  /** The monthly reflection prompt: three questions as heading_3 blocks. */
  const MonthlyCourseCorrection: WriteToEntry.Params :=
    WriteToEntry.Params(
      Some("content"),
      "Monthly Course Correction",
      "heading_3",
      Decoded([
        Plain("What really matters right now in my life? Am I dedicating the necessary energy towards those things?"),
        Plain("Are my current systems and habits aligned with my long-term goals?"),
        Plain("What do I need to cut out of my life?")]),
      true,
      "",
      "")

  /** The daily prompt: a title with an empty body. */
  const DailyThoughts: WriteToEntry.Params :=
    WriteToEntry.Params(Some("content"), "What's on your mind?", "paragraph", Decoded([]), true, "", "")

  /** The prompts posted on a day, in the order they are posted. */
  function SelectPrompts(dayOfMonth: string): (sent: seq<WriteToEntry.Params>)
    ensures |sent| == (if dayOfMonth == "1" then 2 else 1)
    ensures MonthlyCourseCorrection in sent <==> dayOfMonth == "1"
    ensures MonthlyCourseCorrection in sent ==> sent[0] == MonthlyCourseCorrection
    ensures forall i :: 0 <= i < |sent| ==> (sent[i] == DailyThoughts <==> i == |sent| - 1)
    ensures multiset(sent)[DailyThoughts] == 1
  {
    (if dayOfMonth == "1" then [MonthlyCourseCorrection] else []) + [DailyThoughts]
  }

  /** Both prompts are append requests closed by a divider; the monthly one has three heading_3
      lines and the daily one none. */
  lemma PromptPayloads()
    ensures MonthlyCourseCorrection.contentOrProperty == Some(WriteToEntry.ContentRoute)
    ensures MonthlyCourseCorrection.kind == "heading_3" && MonthlyCourseCorrection.divider
    ensures MonthlyCourseCorrection.body.Decoded? && |MonthlyCourseCorrection.body.lines| == 3
    ensures DailyThoughts.contentOrProperty == Some(WriteToEntry.ContentRoute)
    ensures DailyThoughts.kind == "paragraph" && DailyThoughts.divider
    ensures DailyThoughts.body == Decoded([])
  {
  }

  /** The blocks each prompt becomes: the daily prompt is a heading, the empty paragraph and the
      divider; the monthly prompt adds its three questions as heading_3 blocks after the
      heading, six blocks in all. */
  lemma PromptBlocks()
    ensures BuildBlocks(DailyThoughts.title, DailyThoughts.kind, DailyThoughts.body.lines, true)
            == [Heading("What's on your mind?"), Spacer, Divider]
    ensures var m := MonthlyCourseCorrection;
            var blocks := BuildBlocks(m.title, m.kind, m.body.lines, true);
            && |blocks| == 6
            && blocks[0] == Heading("Monthly Course Correction")
            && (forall i :: 1 <= i <= 3 ==> blocks[i].Text? && blocks[i].kind == "heading_3"
                                            && blocks[i].text == RichText(LineText(m.body.lines[i - 1]), None))
            && blocks[4..] == [Spacer, Divider]
  {
  }

  /** A decoder for stringified bodies; the prompts never send one. */
  function NoDecode(json: string): Option<seq<Line>> {
    None
  }

  /** `appendPrompts` delivered to the write endpoint for the page `pageId` of day `date`:
      every prompt of the day becomes one append to that page, in order, and the last one is
      the daily prompt's three blocks. */
  method AppendPrompts(dayOfMonth: string, date: string, pageId: string)
    returns (responses: seq<WriteToEntry.Response>)
    ensures |responses| == |SelectPrompts(dayOfMonth)|
    ensures forall i :: 0 <= i < |responses| ==>
              && responses[i].write.AppendChildren?
              && responses[i].write.pageId == pageId
              && responses[i].reply == WriteToEntry.AppendReply(SelectPrompts(dayOfMonth)[i].title, date, pageId)
    ensures responses[|responses| - 1].write.blocks == [Heading("What's on your mind?"), Spacer, Divider]
    ensures dayOfMonth == "1" ==> |responses[0].write.blocks| == 6
  {
    var prompts := SelectPrompts(dayOfMonth);
    PromptBlocks();
    responses := [];
    var i := 0;
    while i < |prompts|
      invariant 0 <= i <= |prompts|
      invariant |responses| == i
      invariant forall j :: 0 <= j < i ==>
                  && responses[j].write == WriteToEntry.AppendChildren(pageId,
                       BuildBlocks(prompts[j].title, prompts[j].kind, prompts[j].body.lines, true))
                  && responses[j].reply == WriteToEntry.AppendReply(prompts[j].title, date, pageId)
    {
      var r := WriteToEntry.HandleRequest(prompts[i], date, pageId, NoDecode);
      responses := responses + [r];
      i := i + 1;
    }
  }
}
