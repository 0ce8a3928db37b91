/** The post-processing of a generated answer before it is sent back to the
    chat (bot.py, handle_message): the reply is the generator's `output_text`
    cut to its first 4000 characters. */
module Reply {

  /** The largest number of characters a reply carries. */
  const ReplyLimit: nat := 4000

  /** The text sent for a generated answer `output`. It is the longest prefix
      of `output` that fits in the limit: the whole answer when it fits, and
      exactly `ReplyLimit` characters of it otherwise. */
  function ReplyText(output: string): (r: string)
    ensures |r| <= ReplyLimit
    ensures r <= output
    ensures |output| <= ReplyLimit ==> r == output
    ensures |output| > ReplyLimit ==> |r| == ReplyLimit
  {
    if |output| <= ReplyLimit then output else output[..ReplyLimit]
  }

  /** Cutting an already cut reply changes nothing. */
  lemma ReplyTextIdempotent(output: string)
    ensures ReplyText(ReplyText(output)) == ReplyText(output)
  {
  }

  /** Any prefix of the answer that fits in the limit is a prefix of the reply:
      the cut keeps as much of the answer as the limit allows. */
  lemma ReplyTextIsLongestFittingPrefix(output: string, p: string)
    requires p <= output && |p| <= ReplyLimit
    ensures p <= ReplyText(output)
  {
  }
}
