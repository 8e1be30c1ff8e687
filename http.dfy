/**
 * What the API modules share: the request a call issues, what an awaited
 * axios call settles to, the `{success, data | error}` envelope every API
 * function returns instead of throwing, and query strings built with
 * `URLSearchParams`.  Query values are taken as already percent-encoded.
 */
module Http {

  import opened Wrappers
  import opened Js
  import Text
  import Lists

  datatype Verb = Get | Post | Put | Patch | Delete

  /** One call through the shared axios instance: verb, path and optional JSON body. */
  datatype Request = Request(verb: Verb, url: string, body: Option<JsValue>)

  /** The response carried by a rejected call: its status and parsed body. */
  datatype ErrorResponse = ErrorResponse(status: int, data: JsValue)

  /** An axios error: the response, absent for network failures, and the transport message. */
  datatype HttpError = HttpError(response: Option<ErrorResponse>, message: string)

  /** An awaited call: the response body, or the error it rejected with. */
  datatype Outcome<T> = Resolved(body: T) | Rejected(error: HttpError)

  /** `{ success: true, data }` or `{ success: false, error }`. */
  datatype Envelope<T> = Success(data: T) | Failure(error: JsValue)

  /** `error.response?.data?.message`: `undefined` without a response. */
  function BackendMessage(e: HttpError): JsValue {
    if e.response.Some? then OptGet(e.response.value.data, "message") else Undefined
  }

  /** `error.response?.data?.message || error.message`. */
  function ErrorText(e: HttpError): JsValue {
    Or(BackendMessage(e), Str(e.message))
  }

  /** The `try { ... return { success: true, data } } catch ...` shape of every API function. */
  function Settle<T>(o: Outcome<T>): Envelope<T> {
    match o
    case Resolved(body) => Success(body)
    case Rejected(e) => Failure(ErrorText(e))
  }

  /**
   * The envelope is total: a resolved call succeeds with the body
   * unchanged, a rejected one fails with the backend's message when it is
   * truthy and with the transport message otherwise.
   */
  lemma SettleCases<T>(o: Outcome<T>)
    ensures Settle(o).Success? <==> o.Resolved?
    ensures o.Resolved? ==> Settle(o).data == o.body
    ensures o.Rejected? && Truthy(BackendMessage(o.error)) ==> Settle(o).error == BackendMessage(o.error)
    ensures o.Rejected? && !Truthy(BackendMessage(o.error)) ==> Settle(o).error == Str(o.error.message)
  {
  }

  /** A failure without a response (a network error) reports the transport message. */
  lemma NetworkErrorText(message: string)
    ensures ErrorText(HttpError(None, message)) == Str(message)
  {
  }

  /** The error of a failed envelope is non-empty unless both the backend and transport messages are empty. */
  lemma ErrorTextTruthy(e: HttpError)
    ensures Truthy(ErrorText(e)) <==> Truthy(BackendMessage(e)) || e.message != ""
  {
  }

  datatype Param = Param(name: string, value: string)

  /** `params.toString()`: `name=value` pairs joined with `&`. */
  function Serialize(ps: seq<Param>): string {
    Text.Join(seq(|ps|, i requires 0 <= i < |ps| => ps[i].name + "=" + ps[i].value), "&")
  }

  /** `queryString ? `${path}?${queryString}` : path`. */
  function WithQuery(path: string, query: string): string {
    if query != "" then path + "?" + query else path
  }

  /**
   * The parameters `if (filters[k]) params.append(k, filters[k])` adds for
   * the keys `ks` in turn.
   */
  function AppendedParams(filters: Object, ks: seq<string>): seq<Param> {
    if ks == [] then []
    else
      var v := Prop(filters, ks[0]);
      (if Truthy(v) then [Param(ks[0], ToStr(v))] else []) + AppendedParams(filters, ks[1..])
  }

  /** The query string is empty exactly when no parameter was appended. */
  lemma SerializeEmpty(ps: seq<Param>)
    ensures Serialize(ps) == "" <==> ps == []
  {
    if ps != [] {
      var texts := seq(|ps|, i requires 0 <= i < |ps| => ps[i].name + "=" + ps[i].value);
      assert '=' in texts[0];
      if |ps| == 1 {
        assert Serialize(ps) == texts[0];
      } else {
        assert Serialize(ps) == texts[0] + "&" + Text.Join(texts[1..], "&");
      }
    }
  }

  /** The filter value a key contributes, when it contributes one. */
  function KeyParam(filters: Object, k: string): Param {
    Param(k, ToStr(Prop(filters, k)))
  }

  /**
   * The appended parameters are the keys with a truthy filter value, in the
   * order of the keys, each paired with the value's string form; so a
   * parameter is present exactly when its key is listed and its value is
   * truthy.
   */
  lemma {:induction false} AppendedParamsSpec(filters: Object, ks: seq<string>)
    ensures AppendedParams(filters, ks)
      == Lists.Map(Lists.Filter(ks, k => Truthy(Prop(filters, k))), k => KeyParam(filters, k))
    ensures forall p :: p in AppendedParams(filters, ks)
              <==> p.name in ks && Truthy(Prop(filters, p.name)) && p == KeyParam(filters, p.name)
  {
    if ks != [] {
      AppendedParamsSpec(filters, ks[1..]);
      var keep := k => Truthy(Prop(filters, k));
      var f := k => KeyParam(filters, k);
      var head: seq<string> := if keep(ks[0]) then [ks[0]] else [];
      assert Lists.Filter(ks, keep) == head + Lists.Filter(ks[1..], keep);
      assert Lists.Map(head + Lists.Filter(ks[1..], keep), f)
          == Lists.Map(head, f) + Lists.Map(Lists.Filter(ks[1..], keep), f);
      assert ks == [ks[0]] + ks[1..];
    }
  }

  /** `new URLSearchParams()`: the appended pairs, in order. */
  class SearchParams {
    var entries: seq<Param>

    constructor ()
      ensures entries == []
    {
      entries := [];
    }

    /** `params.append(name, value)`. */
    method Append(name: string, value: string)
      modifies this
      ensures entries == old(entries) + [Param(name, value)]
    {
      entries := entries + [Param(name, value)];
    }

    /** `params.toString()`. */
    function ToString(): string
      reads this
    {
      Serialize(entries)
    }
  }

  /**
   * `if (filters[k]) params.append(k, filters[k])`: one conditional
   * append, which keeps the pairs equal to what `AppendedParams` gives for
   * the keys handled so far.
   */
  method AppendIfTruthy(params: SearchParams, filters: Object, done: seq<string>, k: string)
    requires params.entries == AppendedParams(filters, done)
    modifies params
    ensures params.entries == AppendedParams(filters, done + [k])
  {
    var v := Prop(filters, k);
    if Truthy(v) {
      params.Append(k, ToStr(v));
    }
    AppendedParamsSnoc(filters, done, k);
  }

  /** Handling one more key appends its pair at the end, if its value is truthy. */
  lemma {:induction false} AppendedParamsSnoc(filters: Object, ks: seq<string>, k: string)
    ensures AppendedParams(filters, ks + [k])
      == AppendedParams(filters, ks) + (if Truthy(Prop(filters, k)) then [Param(k, ToStr(Prop(filters, k)))] else [])
  {
    if ks != [] {
      assert (ks + [k])[1..] == ks[1..] + [k];
      AppendedParamsSnoc(filters, ks[1..], k);
    }
  }

  /** The URL is the bare path without parameters, and `path?query` with them. */
  lemma UrlShape(path: string, ps: seq<Param>)
    ensures ps == [] ==> WithQuery(path, Serialize(ps)) == path
    ensures ps != [] ==> WithQuery(path, Serialize(ps)) == path + "?" + Serialize(ps)
  {
    SerializeEmpty(ps);
  }
}
