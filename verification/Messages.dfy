/** Multi-part messages. Every frame that passes through a C string ends at its first NUL. */
module Messages {
  import opened Order

  type Message = seq<string>

  const NUL: char := '\0'

  predicate NulFree(s: string) {
    forall i :: 0 <= i < |s| ==> s[i] != NUL
  }

  /** The string a C string pointer to s denotes. */
  function CStr(s: string): (r: string)
    ensures NulFree(r) && r <= s
    ensures r == s <==> NulFree(s)
    ensures |r| < |s| ==> s[|r|] == NUL
  {
    if s == [] || s[0] == NUL then [] else [s[0]] + CStr(s[1..])
  }

  function Wrapped(m: Message, address: string, delim: Option<string>): Message {
    (if delim.Some? then [CStr(address), CStr(delim.value)] else [CStr(address)]) + m
  }

  /** The address in front, and the message without it and without the empty frame that may follow. */
  function Unwrapped(m: Message): (string, Message)
    requires m != []
  {
    (CStr(m[0]), if |m| > 1 && CStr(m[1]) == "" then m[2..] else m[1..])
  }

  function BodySet(m: Message, body: string): Message {
    (if m == [] then [] else m[..|m| - 1]) + [CStr(body)]
  }

  lemma ReplaceLast<T>(front: seq<T>, m: seq<T>, x: T)
    requires m != []
    ensures (front + m)[..|front + m| - 1] + [x] == front + (m[..|m| - 1] + [x])
  {
  }

  class Zmsg {
    var parts: Message

    constructor ()
      ensures parts == []
    {
      parts := [];
    }

    method PushFront(part: string)
      modifies this
      ensures parts == [CStr(part)] + old(parts)
    {
      parts := [CStr(part)] + parts;
    }

    method PushBack(part: string)
      modifies this
      ensures parts == old(parts) + [CStr(part)]
    {
      parts := parts + [CStr(part)];
    }

    method PopFront() returns (part: string)
      requires parts != []
      modifies this
      ensures part == old(parts)[0] && parts == old(parts)[1..]
    {
      part := parts[0];
      parts := parts[1..];
    }

    method SetBody(body: string)
      modifies this
      ensures parts == BodySet(old(parts), body)
    {
      if |parts| > 0 {
        parts := parts[..|parts| - 1];
      }
      PushBack(body);
    }

    method Wrap(address: string, delim: Option<string>)
      modifies this
      ensures parts == Wrapped(old(parts), address, delim)
    {
      if delim.Some? {
        PushFront(delim.value);
      }
      PushFront(address);
    }

    method Unwrap() returns (address: string)
      requires parts != []
      modifies this
      ensures (address, parts) == Unwrapped(old(parts))
    {
      var front := PopFront();
      address := CStr(front);
      if parts != [] && CStr(parts[0]) == "" {
        var delim := PopFront();
        assert parts == old(parts)[2..];
      }
    }
  }

  /** Unwrapping gives back the address, and the message if and only if the delimiter reads
      as empty, or there is none and no frame that reads as empty follows. */
  lemma {:induction false} UnwrapUndoesWrap(m: Message, address: string, delim: Option<string>)
    ensures Unwrapped(Wrapped(m, address, delim)).0 == CStr(address)
    ensures Unwrapped(Wrapped(m, address, delim)).1 == m <==>
      match delim
      case Some(d) => CStr(d) == ""
      case None => m == [] || CStr(m[0]) != ""
  {
    var w := Wrapped(m, address, delim);
    assert w[0] == CStr(address) && CStr(w[0]) == CStr(address);
    match delim
    case Some(d) =>
      assert w[1] == CStr(d) && CStr(w[1]) == CStr(d) && w[2..] == m && |w[1..]| == |m| + 1;
    case None =>
      assert w[1..] == m;
      assert m != [] ==> |w[2..]| == |m| - 1;
  }

  /** A frame that is empty is lost if the message was wrapped without a delimiter. */
  lemma {:induction false} EmptyFrameIsLost()
    ensures Unwrapped(Wrapped(["", "body"], "client", None)) == ("client", ["body"])
  {
    assert NulFree("client") && NulFree("");
    assert Wrapped(["", "body"], "client", None)[2..] == ["body"];
  }
}
