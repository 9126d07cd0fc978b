/**
 * The JSON body that the prediction endpoint returns and the browser
 * renders: either an error message or a facial shape with its
 * recommendations and sample-image paths.
 */
module Protocol {

  datatype Response =
    | ErrorReply(error: string)
    | ShapeReply(
        facialShape: string,
        confidence: string,
        femaleRecommendation: string,
        maleRecommendation: string,
        femaleImages: seq<string>,
        maleImages: seq<string>)

  /** An HTTP reply: its status code and its JSON body. */
  datatype Reply = Reply(status: nat, body: Response)
}
