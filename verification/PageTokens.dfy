/** Page tokens of the task store. */
module PageTokens {
  // An outer text encoding around `<time>_<task ID>`.

  import opened Wrappers
  import opened Ordering

  const SEPARATOR: char := '_'

  datatype TokenError = BadEncoding | ParseError

  /** The two foreign codecs a token is built from: RFC 3339 time text and base64url
      (section 5 of RFC 4648). */
  datatype Codec = Codec(
    formatTime: int -> string,
    parseTime: string -> Option<int>,
    encodeText: string -> string,
    decodeText: string -> Option<string>)
  {
    /** Both codecs are injective, time text never holds the separator, and only the empty
        text encodes to the empty token. */
    ghost predicate Faithful() {
      && (forall t :: parseTime(formatTime(t)) == Some(t))
      && (forall t :: SEPARATOR !in formatTime(t))
      && (forall s :: decodeText(encodeText(s)) == Some(s))
      && (forall s :: s != "" ==> encodeText(s) != "")
    }
  }

  /** `strings.Split` on a one-character separator. */
  function Split(s: string, sep: char): (parts: seq<string>)
    ensures |parts| >= 1
  {
    if s == "" then [""]
    else if s[0] == sep then [""] + Split(s[1..], sep)
    else
      var rest := Split(s[1..], sep);
      [[s[0]] + rest[0]] + rest[1..]
  }

  lemma {:induction false} SplitWhole(s: string, sep: char)
    ensures |Split(s, sep)| == 1 <==> sep !in s
    ensures sep !in s ==> Split(s, sep) == [s]
  {
    if s != "" {
      SplitWhole(s[1..], sep);
      assert s == [s[0]] + s[1..];
    }
  }

  lemma {:induction false} SplitFirst(a: string, b: string, sep: char)
    requires sep !in a
    ensures Split(a + [sep] + b, sep) == [a] + Split(b, sep)
  {
    var s := a + [sep] + b;
    if a == "" {
      assert s[1..] == b;
    } else {
      assert s[1..] == a[1..] + [sep] + b;
      SplitFirst(a[1..], b, sep);
      assert [a[0]] + a[1..] == a;
    }
  }

  function Encode(codec: Codec, p: Position): string {
    codec.encodeText(codec.formatTime(p.when) + [SEPARATOR] + p.id)
  }

  function Decode(codec: Codec, token: string): Result<Position, TokenError> {
    match codec.decodeText(token)
    case None => Err(BadEncoding)
    case Some(text) =>
      var parts := Split(text, SEPARATOR);
      if |parts| != 2 then Err(ParseError)
      else match codec.parseTime(parts[0])
        case None => Err(ParseError)
        case Some(when) => Ok(Position(when, parts[1]))
  }

  /** Exactly the task IDs without the separator survive a token: any other ID makes the token
      the store itself issued unreadable. */
  lemma TokenRoundTrip(codec: Codec, p: Position)
    requires codec.Faithful()
    ensures Decode(codec, Encode(codec, p)) == if SEPARATOR in p.id then Err(ParseError) else Ok(p)
    ensures codec.decodeText(Encode(codec, p)) == Some(codec.formatTime(p.when) + "_" + p.id)
    ensures Encode(codec, p) != ""
  {
    var time := codec.formatTime(p.when);
    assert codec.parseTime(time) == Some(p.when);
    SplitFirst(time, p.id, SEPARATOR);
    SplitWhole(p.id, SEPARATOR);
    var text := time + [SEPARATOR] + p.id;
    assert codec.decodeText(codec.encodeText(text)) == Some(text);
    assert text[|time|] == SEPARATOR;
  }

  lemma {:induction false} SplitInTwo(s: string, sep: char)
    requires |Split(s, sep)| == 2
    ensures var parts := Split(s, sep); s == parts[0] + [sep] + parts[1] && sep !in parts[0] && sep !in parts[1]
  {
    SplitWhole(s[1..], sep);
    if s[0] != sep {
      SplitInTwo(s[1..], sep);
    }
  }

  /** Which tokens can be read at all, whoever made them: those of a time text and a task ID without the
      separator. */
  lemma TokensThatDecode(codec: Codec, token: string, p: Position)
    ensures Decode(codec, token) == Ok(p) <==>
              exists time ::
                && SEPARATOR !in time && SEPARATOR !in p.id
                && codec.decodeText(token) == Some(time + "_" + p.id) && codec.parseTime(time) == Some(p.when)
    ensures Decode(codec, token) == Err(BadEncoding) <==> codec.decodeText(token) == None
  {
    var text := codec.decodeText(token);
    if text.Some? && |Split(text.value, SEPARATOR)| == 2 {
      SplitInTwo(text.value, SEPARATOR);
      assert [SEPARATOR] == "_";
    }
    forall time | SEPARATOR !in time && SEPARATOR !in p.id && text == Some(time + "_" + p.id)
      ensures Split(text.value, SEPARATOR) == [time, p.id]
    {
      SplitFirst(time, p.id, SEPARATOR);
      SplitWhole(p.id, SEPARATOR);
      assert text.value == time + [SEPARATOR] + p.id;
    }
  }

  /** Two entries share a token only when they are the same entry. */
  lemma TokensAreDistinct(codec: Codec, p: Position, q: Position)
    requires codec.Faithful()
    requires Encode(codec, p) == Encode(codec, q)
    ensures p == q
  {
    var tp, tq := codec.formatTime(p.when), codec.formatTime(q.when);
    var sp, sq := tp + [SEPARATOR] + p.id, tq + [SEPARATOR] + q.id;
    assert codec.decodeText(codec.encodeText(sp)) == Some(sp);
    assert codec.decodeText(codec.encodeText(sq)) == Some(sq);
    SplitFirst(tp, p.id, SEPARATOR);
    SplitFirst(tq, q.id, SEPARATOR);
    assert tp == Split(sp, SEPARATOR)[0] == tq;
    assert p.id == sp[|tp| + 1..] == q.id;
    assert codec.parseTime(tp) == Some(p.when);
    assert codec.parseTime(tq) == Some(q.when);
  }

  /** A token that the store issues and then rejects. */
  lemma UnderscoreTokenRejected(codec: Codec)
    requires codec.Faithful()
    ensures Decode(codec, Encode(codec, Position(7, "build_1"))) == Err(ParseError)
  {
    assert "build_1"[5] == SEPARATOR;
    TokenRoundTrip(codec, Position(7, "build_1"));
  }
}
