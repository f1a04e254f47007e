/** `getUserIdFromToken` (src/api/budget.ts and src/api/recurring-expense.ts
    carry the same definition): the `user_id` claim of the stored JWT. */
module Token {
  import opened Wrappers
  import Text

  /** The decoded JWT payload, as far as it is read: its `user_id` claim. */
  datatype Claims = Claims(user_id: Option<int>)

  /** `JSON.parse(atob(segment))`: `None` when either call throws (the
      decoders themselves are outside this model). */
  type Decoder = string -> Option<Claims>

  /** The user id in `token`, or `None`; it never fails. A missing token, a
      token without a second segment, a payload that does not decode and a
      falsy `user_id` all give `None`. */
  function UserIdFromToken(token: Option<string>, decode: Decoder): (u: Option<int>)
    ensures token.None? || token.value == "" ==> u.None?
    ensures u.Some? ==> u.value != 0
    ensures u.Some? <==>
      && token.Some? && token.value != ""
      && |Text.Split(token.value, '.')| >= 2
      && decode(Text.Split(token.value, '.')[1]).Some?
      && decode(Text.Split(token.value, '.')[1]).value.user_id.Some?
      && decode(Text.Split(token.value, '.')[1]).value.user_id.value != 0
    ensures u.Some? ==> u == decode(Text.Split(token.value, '.')[1]).value.user_id
  {
    match token
    case None => None
    case Some(t) =>
      if t == "" then None
      else
        var parts := Text.Split(t, '.');
        // `parts[1]` is `undefined` for a token with no dot; `atob` then throws.
        if |parts| < 2 then None
        else
          match decode(parts[1])
          case None => None
          case Some(claims) =>
            if claims.user_id.Some? && claims.user_id.value != 0 then claims.user_id else None
  }

  /** For a token written `header.payload.signature`, the result depends on
      the payload segment alone: it is the decoded, non-zero `user_id`. */
  lemma ReadsPayloadSegment(header: string, payload: string, signature: string, decode: Decoder)
    requires '.' !in header && '.' !in payload && '.' !in signature
    ensures var u := UserIdFromToken(Some(header + "." + payload + "." + signature), decode);
      u == (match decode(payload)
            case Some(Claims(Some(n))) => if n != 0 then Some(n) else None
            case _ => None)
  {
    var rest := payload + "." + signature;
    assert header + "." + payload + "." + signature == header + "." + rest;
    Text.SplitNone(signature, '.');
    Text.SplitAfterFirst(payload, signature, '.');
    Text.SplitAfterFirst(header, rest, '.');
    assert Text.Split(header + "." + rest, '.')[1] == payload;
  }
}
