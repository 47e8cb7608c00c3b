/** The write-to-entry endpoint: the only writer to the journal database. A request is routed on
    its `contentOrProperty` field to an append of blocks, to a property update, or to a refusal. */
module WriteToEntry {
  import opened Wrappers
  import opened Blocks
  import opened Properties
  import PageLocator

  /** The JSON body posted to the endpoint. The append path reads title, type, body and divider;
      the property path reads property, value and type. A request that does not carry a field
      holds "" there: the path it takes never reads that field. */
  datatype Params = Params(
    contentOrProperty: Option<string>,
    title: string,
    kind: string,
    body: Body,
    divider: bool,
    property: string,
    value: string)

  /** The single write an invocation issues to Notion, if any. */
  datatype Write =
    | AppendChildren(pageId: string, blocks: seq<Block>)
    | UpdatePage(pageId: string, properties: PropertyMap)
    | NoWrite

  /** What the endpoint does: the write it issues and the text it replies with. */
  datatype Response = Response(write: Write, reply: string)

  const ContentRoute: string := "content"
  const PropertyRoute: string := "property"
  const NoLocationReply: string := "No page location specified"

  function AppendReply(title: string, date: string, pageId: string): string {
    "Success! " + title + " added to page " + date + " (page id: " + pageId + ")."
  }

  function UpdateReply(property: string, value: string): string {
    "property " + property + " updated to " + value
  }

  /** `writeToEntry` for the page `pageId` of day `date`. The append and update calls are not
      awaited, so the success reply is sent even when the body cannot be decoded; in that case
      no blocks are appended. */
  method HandleRequest(params: Params, date: string, pageId: string, parse: string -> Option<seq<Line>>)
    returns (r: Response)
    ensures r.write.AppendChildren? <==>
              params.contentOrProperty == Some(ContentRoute) && DecodeBody(params.body, parse).Success?
    ensures r.write.UpdatePage? <==> params.contentOrProperty == Some(PropertyRoute)
    ensures r.write.AppendChildren? ==>
              r.write == AppendChildren(pageId, BuildBlocks(params.title, params.kind,
                                                            DecodeBody(params.body, parse).value, params.divider))
    ensures r.write.UpdatePage? ==>
              r.write == UpdatePage(pageId, UpdateProperty(params.property, params.value, params.kind))
    ensures params.contentOrProperty == Some(ContentRoute) ==> r.reply == AppendReply(params.title, date, pageId)
    ensures params.contentOrProperty == Some(PropertyRoute) ==> r.reply == UpdateReply(params.property, params.value)
    ensures params.contentOrProperty !in {Some(ContentRoute), Some(PropertyRoute)} ==>
              r == Response(NoWrite, NoLocationReply)
  {
    if params.contentOrProperty == Some(ContentRoute) {
      var blocks := TransformDataToBlocks(params.title, params.kind, params.body, params.divider, parse);
      var write := if blocks.Success? then AppendChildren(pageId, blocks.value) else NoWrite;
      r := Response(write, AppendReply(params.title, date, pageId));
    } else if params.contentOrProperty == Some(PropertyRoute) {
      var properties := UpdateProperty(params.property, params.value, params.kind);
      r := Response(UpdatePage(pageId, properties), UpdateReply(params.property, params.value));
    } else {
      r := Response(NoWrite, NoLocationReply);
    }
  }

  /** A fresh instance of the function: at load it looks up (or creates) the page of `date`,
      then it serves one request against that page. The page is located before the request is
      routed, so even a refused request can create the day's page. */
  method ColdStart(db: seq<PageLocator.Page>, date: string, freshId: string, params: Params,
                   parse: string -> Option<seq<Line>>)
    returns (r: Response, after: seq<PageLocator.Page>)
    ensures after == PageLocator.Locate(db, date, freshId).db
    ensures !r.write.NoWrite? ==> r.write.pageId == PageLocator.Locate(db, date, freshId).id
    ensures params.contentOrProperty !in {Some(ContentRoute), Some(PropertyRoute)} ==> r.write.NoWrite?
  {
    var pageId;
    pageId, after := PageLocator.GetEntryPageIdFromDate(db, date, freshId);
    r := HandleRequest(params, date, pageId, parse);
  }
}
