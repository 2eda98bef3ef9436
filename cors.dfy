/**
 * The CORS origin policy (template/src/Core/Middlewares/cors.ts): which
 * request origins the `cors` middleware lets through, per environment.
 * The middleware wrapper itself hands these options to the `cors` package,
 * which is not part of this model.
 */
module Cors {
  import opened Wrappers

  /** Origins allowed outside production. */
  const StagingAllowList: set<string> := {"http://staging.com"}

  /** Origins allowed in production. */
  const ProductionAllowList: set<string> := {"https://production.com"}

  const NotAllowedMessage := "Not allowed by CORS"

  /** The fixed options passed next to the origin callback. */
  const Credentials := true
  const Methods: seq<string> := ["GET", "POST", "PUT", "DELETE", "OPTIONS"]

  /** What the origin callback reports: `callback(null, true)` or `callback(new Error(message))`. */
  datatype Decision = Allow | Reject(message: string)

  predicate EndsWithSlash(s: string) {
    |s| > 0 && s[|s| - 1] == '/'
  }

  /** `origin.replace(/\/$/, '')`: one trailing slash, if any, is removed. */
  function NormalizeOrigin(origin: string): (r: string)
    ensures EndsWithSlash(origin) ==> origin == r + "/"
    ensures !EndsWithSlash(origin) ==> r == origin
  {
    if EndsWithSlash(origin) then origin[..|origin| - 1] else origin
  }

  /** Only `NODE_ENV === "production"` selects the production list. */
  function AllowList(nodeEnv: string): set<string> {
    if nodeEnv == "production" then ProductionAllowList else StagingAllowList
  }

  /** The `origin` callback; `None` is an absent header. */
  function OriginDecision(origin: Option<string>, nodeEnv: string): (d: Decision)
    ensures d.Allow? <==>
      origin.None? || origin.value == "" || NormalizeOrigin(origin.value) in AllowList(nodeEnv)
    ensures d.Reject? ==> d == Reject(NotAllowedMessage)
  {
    match origin
    case None => Allow
    case Some(o) =>
      if o == "" then Allow
      else if NormalizeOrigin(o) in AllowList(nodeEnv) then Allow
      else Reject(NotAllowedMessage)
  }

  /** Exactly one slash is stripped: a doubled slash leaves one behind. */
  lemma NormalizeStripsOnlyOne(o: string)
    ensures NormalizeOrigin(o + "//") == o + "/"
    ensures NormalizeOrigin(o + "/") == o
  {
    assert (o + "//")[..|o| + 1] == o + "/";
    assert (o + "/")[..|o|] == o;
  }

  /** A listed origin is accepted with or without one trailing slash, and
      rejected with two. */
  lemma TrailingSlashTolerance(o: string, nodeEnv: string)
    requires o in AllowList(nodeEnv)
    ensures OriginDecision(Some(o), nodeEnv) == Allow
    ensures OriginDecision(Some(o + "/"), nodeEnv) == Allow
    ensures OriginDecision(Some(o + "//"), nodeEnv) == Reject(NotAllowedMessage)
  {
    NormalizeStripsOnlyOne(o);
    assert !EndsWithSlash(o);
    assert forall x | x in AllowList(nodeEnv) :: !EndsWithSlash(x);
    assert EndsWithSlash(o + "/");
  }

  /** Each environment's origin is refused in the other environment. */
  lemma EnvironmentsAreSeparate(nodeEnv: string)
    ensures OriginDecision(Some("https://production.com"), nodeEnv).Allow? <==> nodeEnv == "production"
    ensures OriginDecision(Some("http://staging.com"), nodeEnv).Allow? <==> nodeEnv != "production"
  {
    assert NormalizeOrigin("https://production.com") == "https://production.com";
    assert NormalizeOrigin("http://staging.com") == "http://staging.com";
    assert "https://production.com" != "http://staging.com" by {
      assert "https://production.com"[4] != "http://staging.com"[4];
    }
  }
}
