/**
 * The parsing step of `SushiroUtils.get_queue_info` (src/utils.py): the live
 * queue feed answers with a list of ticket strings, each of which may carry a
 * suffix after a dash; the bot keeps what precedes the first dash.
 */
module QueueInfo {
  import opened Wrappers

  /** `re.split('-', s)[0]`: the longest prefix of `s` without a dash. */
  function BeforeDash(s: string): (r: string)
    ensures r <= s
    ensures '-' !in r
    ensures |r| < |s| ==> s[|r|] == '-'
  {
    if s == [] || s[0] == '-' then [] else [s[0]] + BeforeDash(s[1..])
  }

  /** A string without a dash is kept whole. */
  lemma BeforeDashNoDash(s: string)
    requires '-' !in s
    ensures BeforeDash(s) == s
  {
  }

  /** Cutting twice cuts nothing more. */
  lemma BeforeDashIdempotent(s: string)
    ensures BeforeDash(BeforeDash(s)) == BeforeDash(s)
  {
    BeforeDashNoDash(BeforeDash(s));
  }

  /**
   * The feed's answer: `None` stands for a falsy response (null), `Some(xs)`
   * for a JSON list of ticket strings (falsy when empty).
   */
  function ParseQueue(response: Option<seq<string>>): (tickets: seq<string>)
    ensures response.None? ==> tickets == []
    ensures response.Some? ==> |tickets| == |response.value|
    ensures response.Some? ==> forall i :: 0 <= i < |tickets| ==>
      && tickets[i] <= response.value[i]
      && '-' !in tickets[i]
      && (|tickets[i]| < |response.value[i]| ==> response.value[i][|tickets[i]|] == '-')
  {
    match response
    case None => []
    case Some(xs) =>
      if xs == [] then []
      else seq(|xs|, i requires 0 <= i < |xs| => BeforeDash(xs[i]))
  }

  /** An entry without a dash comes out of the parse unchanged, in its place. */
  lemma ParseKeepsPlainEntries(xs: seq<string>, i: nat)
    requires i < |xs| && '-' !in xs[i]
    ensures |ParseQueue(Some(xs))| == |xs| && ParseQueue(Some(xs))[i] == xs[i]
  {
    BeforeDashNoDash(xs[i]);
  }
}
