/**
 * The contract of `request` from src/hooks/useApi.ts as the core sees it:
 * the request a handler issues, the outcome it may await, and the
 * decimal rendering of task ids inside request paths.
 */
module Api {
  import opened Wrappers

  /** The storage key under which the session token lives. */
  const AuthKey: string := "auth"

  /** `localStorage.getItem("auth")` is truthy: present and not the empty string. */
  predicate HasToken(storage: map<string, string>)
  {
    AuthKey in storage && storage[AuthKey] != ""
  }

  /** The Authorization header `request` attaches, if any. */
  function AuthHeader(storage: map<string, string>): (h: Option<string>)
    ensures h.Some? <==> HasToken(storage)
    ensures h.Some? ==> h.value == "Token " + storage[AuthKey]
  {
    if HasToken(storage) then Some("Token " + storage[AuthKey]) else None
  }

  datatype Verb = Get | Post | Put | Delete

  /** One call of `request(url, method, body?)`. */
  datatype Request<B> = Request(verb: Verb, url: string, body: Option<B>)

  /** What `fetch` produced before `request` inspects it. */
  datatype FetchResult<J> =
    | Rejected                                   // network failure: fetch itself rejects
    | Response(ok: bool, status: int, body: Option<J>)   // body: the parsed JSON, None when not JSON

  /**
   * What awaiting `request` yields. A non-ok status and a rejected fetch
   * are both caught and RETURNED as an Error value; only a body that is not
   * JSON makes the awaited promise reject, because `response.json()` is
   * returned without being awaited inside the try block.
   */
  datatype Outcome<J> = Json(value: J) | NoContent | ReturnedError | Throws
  {
    /** The awaiting handler carries on past `await request(...)`. */
    predicate Completes() { !Throws? }
  }

  /** How `request` turns a fetch result into its outcome. */
  function Classify<J>(r: FetchResult<J>): (o: Outcome<J>)
    ensures o.ReturnedError? <==> r.Rejected? || !r.ok
    ensures o.NoContent? <==> r.Response? && r.ok && r.status == 204
    ensures o.Throws? <==> r.Response? && r.ok && r.status != 204 && r.body.None?
    ensures o.Json? ==> r.Response? && r.body == Some(o.value)
  {
    match r
    case Rejected => ReturnedError
    case Response(ok, status, body) =>
      if !ok then ReturnedError
      else if status == 204 then NoContent
      else if body.None? then Throws
      else Json(body.value)
  }

  predicate IsDigit(c: char) { '0' <= c <= '9' }

  /** Decimal notation of a natural number, as a template literal renders it. */
  function Decimal(n: nat): (s: string)
    ensures |s| >= 1
    ensures forall i :: 0 <= i < |s| ==> IsDigit(s[i])
    ensures n >= 10 ==> s[0] != '0'
  {
    var last := [(('0' as int) + n % 10) as char];
    if n < 10 then last else Decimal(n / 10) + last
  }

  /** The value of a string of decimal digits. */
  function ParseDecimal(s: string): nat
  {
    if s == [] then 0
    else ParseDecimal(s[..|s| - 1]) * 10 + ((s[|s| - 1] as int) - ('0' as int)) % 10
  }

  lemma {:induction false} DecimalRoundTrip(n: nat)
    ensures ParseDecimal(Decimal(n)) == n
  {
    var s := Decimal(n);
    assert s[..|s| - 1] == if n < 10 then [] else Decimal(n / 10);
    if n >= 10 {
      DecimalRoundTrip(n / 10);
    }
  }

  /** The path of one task: `tasks/${id}/`. */
  function TaskUrl(id: nat): (url: string)
    ensures |url| > 7 && url[..6] == "tasks/" && url[|url| - 1] == '/'
    ensures ParseDecimal(url[6..|url| - 1]) == id
  {
    DecimalRoundTrip(id);
    var url := "tasks/" + Decimal(id) + "/";
    assert url[6..|url| - 1] == Decimal(id);
    url
  }

  /** Different ids reach different paths, so a request names exactly one task. */
  lemma TaskUrlInjective(a: nat, b: nat)
    ensures TaskUrl(a) == TaskUrl(b) <==> a == b
  {
    if TaskUrl(a) == TaskUrl(b) {
      var u := TaskUrl(a);
      assert Decimal(a) == u[6..|u| - 1];
      assert Decimal(b) == TaskUrl(b)[6..|TaskUrl(b)| - 1];
      DecimalRoundTrip(a);
      DecimalRoundTrip(b);
    }
  }

  lemma TaskUrlExample()
    ensures TaskUrl(42) == "tasks/42/"
  {
  }
}
