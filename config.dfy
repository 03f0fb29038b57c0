/** Token configuration for the hosted inference endpoint (src/lib/config.ts). */
module Config {
  import opened Wrappers

  const HfEndpoint := "https://api-inference.huggingface.co/models/mistralai/Mistral-7B-Instruct-v0.3"

  const MissingTokenMessage := "HUGGINGFACE_API_TOKEN is not set. Please configure it in your environment variables."

  /**
   * The token from the environment variable HUGGINGFACE_API_TOKEN, given as `env`
   * (`None` when the variable is undefined). An undefined or empty value is an error.
   */
  function GetHfToken(env: Option<string>): (r: Result<string, string>)
    ensures r.Success? <==> env.Some? && env.value != ""
    ensures r.Success? ==> r.value == env.value
    ensures r.Failure? ==> r.error == MissingTokenMessage
  {
    match env
    case None => Failure(MissingTokenMessage)
    case Some(token) => if token == "" then Failure(MissingTokenMessage) else Success(token)
  }

  /** A token shown for display: its first and last four characters at most. */
  function MaskToken(token: string): (r: string)
    ensures |token| < 8 ==> r == "***"
    ensures |token| >= 8 ==> r == token[..4] + "..." + token[|token| - 4..]
    ensures |r| == 3 || |r| == 11
  {
    if token == "" then "***"
    else if |token| < 8 then "***"
    else token[..4] + "..." + token[|token| - 4..]
  }

  /** The mask of a short token says nothing about it. */
  lemma MaskHidesShortTokens(t1: string, t2: string)
    requires |t1| < 8 && |t2| < 8
    ensures MaskToken(t1) == MaskToken(t2)
  {
  }

  /** The mask depends on the first four and the last four characters only. */
  lemma MaskExposesAtMostEight(t1: string, t2: string)
    requires |t1| >= 8 && |t2| >= 8
    requires t1[..4] == t2[..4] && t1[|t1| - 4..] == t2[|t2| - 4..]
    ensures MaskToken(t1) == MaskToken(t2)
  {
  }
}
