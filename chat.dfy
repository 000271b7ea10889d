/**
 * The unary chat calls (src/api/chat.ts). `chatConsult` digs the reply text
 * out of whatever shape the success interceptor handed back; the other
 * getters fall back to an empty list or an empty string on a falsy response.
 */
module Chat {
  import opened Js
  import Api

  /** The consult request: its conversation id, and the rest, which is only forwarded */
  datatype ConsultRequest = ConsultRequest(conversationId: Value, rest: Value)

  datatype ConsultResponse = ConsultResponse(data: Value, conversationId: Value)

  /** `Object.values(v).join('')` */
  function JoinedValues(v: Value): string
    requires HasProperties(v)
  {
    Join(ObjectValues(v), "")
  }

  /** The reply text chosen by shape (chat.ts:25-41) */
  function ReplyOf(response: Value): (r: Value)
    // A string is the reply as it is.
    ensures response.Str? ==> r == response
    // An object with a key `'0'` is a string spread over its keys: its values, concatenated.
    ensures response.Obj? && HasField(response.fields, "0") ==> r == Str(Concat(FieldValues(response.fields)))
    // Otherwise a truthy `data` property is the reply, an object there being concatenated too.
    ensures response.Obj? && !HasField(response.fields, "0") && Truthy(Get(response, "data")) ==>
              var data := Get(response, "data");
              r == if data.Obj? then Str(Concat(FieldValues(data.fields))) else data
    // Everything else gives the empty reply: primitives, arrays, and objects with neither.
    ensures !response.Str? && !response.Obj? ==> r == Str("")
    ensures response.Obj? && !HasField(response.fields, "0") && !Truthy(Get(response, "data")) ==> r == Str("")
  {
    NotAnArrayKey(response, "data");
    if response.Str? then
      response
    else if IsObject(response) && !response.Null? then
      if HasKey(response, "0") && !response.Arr? then
        JoinEmptyIsConcat(ObjectValues(response));
        Str(JoinedValues(response))
      else if Truthy(Get(response, "data")) then
        var data := Get(response, "data");
        if IsObject(data) && !data.Arr? && !data.Null? then
          JoinEmptyIsConcat(ObjectValues(data));
          Str(JoinedValues(data))
        else
          data
      else
        Str("")
    else
      Str("")
  }

  /** `chatConsult` (chat.ts:15-48): the reply, and the request's own conversation id */
  function ChatConsult(request: ConsultRequest, response: Value): (r: ConsultResponse)
    ensures r.conversationId == request.conversationId
    ensures r.data == ReplyOf(response)
  {
    ConsultResponse(ReplyOf(response), request.conversationId)
  }

  /** The object a string becomes when it is spread into one: `{...s}` */
  function Spread(s: string): Value {
    Obj(seq(|s|, i requires 0 <= i < |s| => (NatToString(i), Str([s[i]]))))
  }

  lemma {:induction false} ConcatOfCharacters(s: string, fields: seq<(string, Value)>)
    requires |fields| == |s|
    requires forall i :: 0 <= i < |s| ==> fields[i].1 == Str([s[i]])
    ensures Concat(FieldValues(fields)) == s
  {
    if s != [] {
      ConcatOfCharacters(s[1..], fields[1..]);
      var values := FieldValues(fields);
      assert values[1..] == FieldValues(fields[1..]);
      assert Piece(values[0]) == [s[0]];
      assert s == [s[0]] + s[1..];
    }
  }

  /**
   * A reply the backend sends as a spread string is recovered exactly; the
   * empty string spreads into `{}`, which gives the empty reply as well.
   */
  lemma SpreadReplyRoundTrip(s: string)
    ensures ReplyOf(Spread(s)) == Str(s)
  {
    var fields := Spread(s).fields;
    if s != "" {
      assert fields[0].0 == "0";
      ConcatOfCharacters(s, fields);
    }
  }

  /** The same holds behind the success interceptor, for a spread reply inside the envelope. */
  lemma ConsultBehindInterceptor(request: ConsultRequest, s: string)
    ensures ChatConsult(request, Api.Unwrap(Api.Envelope(Spread(s)))) == ConsultResponse(Str(s), request.conversationId)
    ensures ChatConsult(request, Api.Unwrap(Api.Envelope(Str(s)))) == ConsultResponse(Str(s), request.conversationId)
  {
    Api.UnwrapEnvelope(Spread(s));
    Api.UnwrapEnvelope(Str(s));
    SpreadReplyRoundTrip(s);
  }

  /** `getSecondaryQuestionTitles`, `getChatHistory`, `getChatHistories`: `response || []` */
  function ListOrEmpty(response: Value): (r: Value)
    ensures Truthy(r)
    ensures Truthy(response) ==> r == response
    ensures !Truthy(response) ==> r == Arr([])
  {
    Or(response, Arr([]))
  }

  /** `createNewChat`, `createNewChatWithTitle`: `response || ''` */
  function IdOrEmpty(response: Value): (r: Value)
    ensures Truthy(response) ==> r == response
    ensures !Truthy(response) ==> r == Str("")
  {
    Or(response, Str(""))
  }
}
