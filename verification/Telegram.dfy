/** Squashing a batch of Telegram messages into one. */
module Telegram {
  import opened DigestText

  datatype Payload = Payload(chatId: string, text: string, caption: string, photo: string)

  /** payload is the encoded form that is sent; parsed is the same content decoded. */
  datatype Message = Message(apiMethod: string, payload: string, parsed: Payload)

  datatype Error = NoMessages | MixedMethods | MixedChats

  datatype Result<T> = Ok(value: T) | Err(error: Error)

  /** The key messages are batched by: the chat, whatever the method. */
  function GetSquashKey(m: Message): string {
    m.parsed.chatId
  }

  class Builder {
    var text: string

    constructor ()
      ensures text == ""
    {
      text := "";
    }

    method WriteString(s: string)
      modifies this
      ensures text == old(text) + s
    {
      text := text + s;
    }
  }

  /** The builder's text after a raw text has been added. */
  function Concat(texts: string, raw: string): string {
    var text := TrimSpace(raw);
    if text == "" then texts
    else if texts == "" || HasSuffix(texts, "\n\n") then texts + text
    else if HasSuffix(texts, "\n") then texts + "\n" + text
    else texts + "\n\n" + text
  }

  predicate EndsInNewline(s: string) {
    s != [] && s[|s| - 1] == '\n'
  }

  predicate EndsInBlankLine(s: string) {
    EndsInNewline(s) && EndsInNewline(s[..|s| - 1])
  }

  lemma NewlineSuffix(s: string)
    ensures HasSuffix(s, "\n") <==> EndsInNewline(s)
    ensures HasSuffix(s, "\n\n") <==> EndsInBlankLine(s)
  {
    if EndsInNewline(s) {
      assert s[|s| - 1..] == "\n";
    }
    if HasSuffix(s, "\n") {
      assert s[|s| - 1..][0] == s[|s| - 1];
    }
    if EndsInBlankLine(s) {
      assert s[|s| - 2..] == "\n\n";
    }
    if HasSuffix(s, "\n\n") {
      assert s[|s| - 2..][0] == s[|s| - 2] && s[|s| - 2..][1] == s[|s| - 1];
    }
  }

  /** Adds a text without the white space at its ends, with what it takes to set it off by a blank line, unless it is all white space. */
  method ConcatText(builder: Builder, raw: string)
    modifies builder
    ensures builder.text == Concat(old(builder.text), raw)
    ensures AllSpace(raw) ==> builder.text == old(builder.text)
    ensures !AllSpace(raw) ==>
              var before := old(builder.text);
              var gap := if before == "" || EndsInBlankLine(before) then "" else if EndsInNewline(before) then "\n" else "\n\n";
              exists t :: t != "" && Trims(raw, t) && builder.text == before + gap + t
  {
    TrimSpaceTrims(raw);
    NewlineSuffix(builder.text);
    assert Trims(raw, TrimSpace(raw));
    hide TrimSpace, AllSpace, Trims, HasSuffix, EndsInNewline, EndsInBlankLine;
    var text := TrimSpace(raw);
    if |text| == 0 {
      return;
    }
    var texts := builder.text;
    if |texts| == 0 || HasSuffix(texts, "\n\n") {
      // The separator is there already.
    } else if HasSuffix(texts, "\n") {
      builder.WriteString("\n");
    } else {
      builder.WriteString("\n\n");
    }
    builder.WriteString(text);
  }

  /**
   * Adding one text after another builds the digest of all of them. The builder never ends in a
   * newline, so of the two branches that look for one, neither is ever taken.
   */
  lemma ConcatDigests(texts: seq<string>, raw: string)
    ensures Concat(Digest(texts), raw) == Digest(texts + [raw])
    ensures !HasSuffix(Digest(texts), "\n") && !HasSuffix(Digest(texts), "\n\n")
  {
    var ps := Pieces(texts);
    PiecesClean(texts);
    JoinTrimmed(ps);
    NewlineSuffix(Digest(texts));
    PiecesConcat(texts, [raw]);
    PieceOfOne(raw);
    if TrimSpace(raw) == [] {
      assert ps + [] == ps;
    } else if ps != [] {
      JoinAppend(ps, TrimSpace(raw));
    }
  }

  function Texts(msgs: seq<Message>): seq<string> {
    seq(|msgs|, i requires 0 <= i < |msgs| => msgs[i].parsed.text)
  }

  function Captions(msgs: seq<Message>): seq<string> {
    seq(|msgs|, i requires 0 <= i < |msgs| => msgs[i].parsed.caption)
  }

  /** The error of the first message that cannot be squashed with the given one. */
  function FirstError(first: Message, msgs: seq<Message>): Result<()> {
    if msgs == [] then Ok(())
    else if msgs[0].apiMethod != first.apiMethod then Err(MixedMethods)
    else if msgs[0].parsed.chatId != first.parsed.chatId then Err(MixedChats)
    else FirstError(first, msgs[1..])
  }

  /** A message of the same method and chat. */
  predicate SameKind(first: Message, m: Message) {
    m.apiMethod == first.apiMethod && m.parsed.chatId == first.parsed.chatId
  }

  /** The i-th message is the first one not of first's kind, and e says in what it differs, the method before the chat. */
  ghost predicate FirstOdd(first: Message, msgs: seq<Message>, i: nat, e: Error) {
    && i < |msgs| && !SameKind(first, msgs[i])
    && (forall j | 0 <= j < i :: SameKind(first, msgs[j]))
    && e == if msgs[i].apiMethod != first.apiMethod then MixedMethods else MixedChats
  }

  lemma {:induction false} FirstErrorIs(first: Message, msgs: seq<Message>)
    ensures FirstError(first, msgs).Ok? <==> forall i | 0 <= i < |msgs| :: SameKind(first, msgs[i])
    ensures FirstError(first, msgs).Err? ==> exists i: nat :: FirstOdd(first, msgs, i, FirstError(first, msgs).error)
  {
    if msgs != [] {
      var rest := msgs[1..];
      assert forall i | 0 < i < |msgs| :: msgs[i] == rest[i - 1];
      if !SameKind(first, msgs[0]) {
        assert FirstOdd(first, msgs, 0, FirstError(first, msgs).error);
      } else {
        FirstErrorIs(first, rest);
        if FirstError(first, rest).Err? {
          var i: nat :| FirstOdd(first, rest, i, FirstError(first, rest).error);
          assert msgs[i + 1] == rest[i];
          assert FirstOdd(first, msgs, i + 1, FirstError(first, msgs).error);
        }
      }
    }
  }

  /** What squashing means: the first message with the digests of all texts and captions. */
  function Squash(encode: Payload -> string, msgs: seq<Message>): Result<Message> {
    if msgs == [] then Err(NoMessages)
    else if FirstError(msgs[0], msgs).Err? then Err(FirstError(msgs[0], msgs).error)
    else
      var parsed := msgs[0].parsed.(text := Digest(Texts(msgs)), caption := Digest(Captions(msgs)));
      Ok(msgs[0].(parsed := parsed, payload := encode(parsed)))
  }

  lemma DigestStep(texts: seq<string>, i: nat)
    requires i < |texts|
    ensures Concat(Digest(texts[..i]), texts[i]) == Digest(texts[..i + 1])
  {
    assert texts[..i + 1] == texts[..i] + [texts[i]];
    ConcatDigests(texts[..i], texts[i]);
  }

  /** The loop over the batch, with a builder for the texts and one for the captions. */
  method SquashMessages(encode: Payload -> string, msgs: seq<Message>) returns (r: Result<Message>)
    ensures r == Squash(encode, msgs)
    ensures r.Ok? <==> msgs != [] && forall i | 0 <= i < |msgs| :: SameKind(msgs[0], msgs[i])
    ensures r.Err? ==> if msgs == [] then r.error == NoMessages else exists i: nat :: FirstOdd(msgs[0], msgs, i, r.error)
    ensures r.Ok? ==>
              var d := r.value;
              && d.payload == encode(d.parsed) && SameKind(msgs[0], d) && d.parsed.photo == msgs[0].parsed.photo
              && d.parsed.text == Join(Pieces(Texts(msgs))) && d.parsed.caption == Join(Pieces(Captions(msgs)))
  {
    if msgs != [] {
      FirstErrorIs(msgs[0], msgs);
    }
    if |msgs| == 0 {
      return Err(NoMessages);
    }
    var dmsg := msgs[0];
    var texts := new Builder();
    var captions := new Builder();
    for i := 0 to |msgs|
      invariant FirstError(dmsg, msgs) == FirstError(dmsg, msgs[i..])
      invariant texts != captions && fresh(texts) && fresh(captions)
      invariant texts.text == Digest(Texts(msgs)[..i])
      invariant captions.text == Digest(Captions(msgs)[..i])
    {
      var msg := msgs[i];
      assert msgs[i..][0] == msg && msgs[i..][1..] == msgs[i + 1..];
      if msg.apiMethod != dmsg.apiMethod {
        return Err(MixedMethods);
      }
      if msg.parsed.chatId != dmsg.parsed.chatId {
        return Err(MixedChats);
      }
      ConcatText(texts, msg.parsed.text);
      ConcatText(captions, msg.parsed.caption);
      DigestStep(Texts(msgs), i);
      DigestStep(Captions(msgs), i);
    }
    assert Texts(msgs)[..|msgs|] == Texts(msgs) && Captions(msgs)[..|msgs|] == Captions(msgs);
    var parsed := dmsg.parsed.(text := texts.text, caption := captions.text);
    return Ok(dmsg.(parsed := parsed, payload := encode(parsed)));
  }

  // ---------- squashing in stages ----------

  lemma {:induction false} FirstErrorConcat(first: Message, a: seq<Message>, b: seq<Message>)
    ensures FirstError(first, a + b) == if FirstError(first, a).Err? then FirstError(first, a) else FirstError(first, b)
  {
    if a == [] {
      assert a + b == b;
    } else {
      assert (a + b)[0] == a[0] && (a + b)[1..] == a[1..] + b;
      FirstErrorConcat(first, a[1..], b);
    }
  }

  /** Only the method and the chat of the first message decide about errors. */
  lemma {:induction false} FirstErrorSame(first: Message, other: Message, msgs: seq<Message>)
    requires first.apiMethod == other.apiMethod && first.parsed.chatId == other.parsed.chatId
    ensures FirstError(first, msgs) == FirstError(other, msgs)
  {
    if msgs != [] {
      FirstErrorSame(first, other, msgs[1..]);
    }
  }

  lemma TextsStaged(d: Message, a: seq<Message>, b: seq<Message>)
    requires d.parsed.text == Digest(Texts(a)) && d.parsed.caption == Digest(Captions(a))
    ensures Digest(Texts([d] + b)) == Digest(Texts(a + b))
    ensures Digest(Captions([d] + b)) == Digest(Captions(a + b))
  {
    hide Digest;
    assert Texts([d] + b) == [Digest(Texts(a))] + Texts(b) && Texts(a + b) == Texts(a) + Texts(b);
    assert Captions([d] + b) == [Digest(Captions(a))] + Captions(b) && Captions(a + b) == Captions(a) + Captions(b);
    DigestStaged(Texts(a), Texts(b));
    DigestStaged(Captions(a), Captions(b));
  }

  /**
   * For every split of a batch: an error in the front part is the error of the whole, and squashing
   * the squashed front part with the rest gives the same message, or the same error, as squashing
   * everything at once.
   */
  lemma StagedSquash(encode: Payload -> string, msgs: seq<Message>, k: nat)
    requires 0 < k <= |msgs|
    ensures match Squash(encode, msgs[..k])
            case Err(e) => Squash(encode, msgs) == Err(e)
            case Ok(d) => Squash(encode, [d] + msgs[k..]) == Squash(encode, msgs)
  {
    var a, b := msgs[..k], msgs[k..];
    assert msgs == a + b && a[0] == msgs[0];
    FirstErrorConcat(msgs[0], a, b);
    match Squash(encode, a)
    case Err(_) =>
    case Ok(d) =>
      assert ([d] + b)[0] == d && ([d] + b)[1..] == b;
      hide Digest;
      FirstErrorSame(d, msgs[0], b);
      TextsStaged(d, a, b);
  }

  lemma {:induction false} OneChat(first: Message, msgs: seq<Message>)
    requires forall i | 0 <= i < |msgs| :: msgs[i].parsed.chatId == first.parsed.chatId
    ensures FirstError(first, msgs) ==
            if forall i | 0 <= i < |msgs| :: msgs[i].apiMethod == first.apiMethod then Ok(()) else Err(MixedMethods)
  {
    if msgs != [] {
      assert msgs[0].parsed.chatId == first.parsed.chatId;
      OneChat(first, msgs[1..]);
      assert forall i | 1 <= i < |msgs| :: msgs[i] == msgs[1..][i - 1];
      if forall i | 0 <= i < |msgs[1..]| :: msgs[1..][i].apiMethod == first.apiMethod {
        assert forall i | 1 <= i < |msgs| :: msgs[i].apiMethod == first.apiMethod;
      }
    }
  }

  /** A batch as the limiter builds it, all for one chat, fails to squash exactly when its methods differ. */
  lemma BatchSquashes(encode: Payload -> string, msgs: seq<Message>)
    requires msgs != [] && forall i | 0 <= i < |msgs| :: GetSquashKey(msgs[i]) == GetSquashKey(msgs[0])
    ensures Squash(encode, msgs).Ok? <==> forall i | 0 <= i < |msgs| :: msgs[i].apiMethod == msgs[0].apiMethod
    ensures Squash(encode, msgs).Err? ==> Squash(encode, msgs).error == MixedMethods
  {
    OneChat(msgs[0], msgs);
  }

  /**
   * The texts of a batch can be read back from the squashed message, and so can the captions, exactly
   * if there is one and none contains a blank line.
   */
  lemma SquashedTextSplits(encode: Payload -> string, msgs: seq<Message>)
    requires Squash(encode, msgs).Ok?
    ensures var d := Squash(encode, msgs).value.parsed;
            && (Split(d.text) == Pieces(Texts(msgs)) <==>
                  Pieces(Texts(msgs)) != [] && forall p | p in Pieces(Texts(msgs)) :: !HasSeparator(p))
            && (Split(d.caption) == Pieces(Captions(msgs)) <==>
                  Pieces(Captions(msgs)) != [] && forall p | p in Pieces(Captions(msgs)) :: !HasSeparator(p))
  {
    DigestRoundTrip(Texts(msgs));
    DigestRoundTrip(Captions(msgs));
  }
}
