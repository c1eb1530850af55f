/**
 Finding a connection link in a pasted text and taking its payload out of it, up to the octets that are
 then parsed as JSON.
 */
module ConnectLink {
  import opened Packets
  import B = Base64Url

  const SCHEME: string := "owalkie://"
  const MARKER: string := "owalkie://connect/"

  /** The white space of the C locale. */
  predicate IsSpace(c: char)
  {
    c == ' ' || c == '\t' || c == '\n' || c == '\r' || c as int == 11 || c as int == 12
  }

  predicate IsPunctuation(c: char)
  {
    c == '.' || c == ',' || c == ';' || c == ':' || c == '!' || c == '?' || c == ')' || c == ']' || c == '}'
  }

  predicate MarkerAt(text: string, i: nat)
  {
    i + |MARKER| <= |text| && text[i..i + |MARKER|] == MARKER
  }

  /** The first place of the marker, at or after a place. */
  function FindMarker(text: string, from: nat): (r: Option<nat>)
    ensures r.Some? ==> from <= r.value && MarkerAt(text, r.value)
    ensures r.Some? ==> forall i :: from <= i < r.value ==> !MarkerAt(text, i)
    ensures r.None? ==> forall i :: from <= i ==> !MarkerAt(text, i)
    decreases |text| - from
  {
    if from + |MARKER| > |text| then None
    else if MarkerAt(text, from) then Some(from)
    else FindMarker(text, from + 1)
  }

  /** The first white space at or after a place, or the end of the text. */
  function WordEnd(text: string, from: nat): (r: nat)
    requires from <= |text|
    ensures from <= r <= |text|
    decreases |text| - from
  {
    if from == |text| || IsSpace(text[from]) then from else WordEnd(text, from + 1)
  }

  /** The link in a text: from the first marker to the next white space. */
  function LinkIn(text: string): Option<string>
  {
    var start := FindMarker(text, 0);
    if start.None? then None else Some(text[start.value..WordEnd(text, start.value)])
  }

  function DropEnd(s: string, p: char -> bool): (r: string)
    ensures r <= s
    decreases s
  {
    if s != [] && p(s[|s| - 1]) then DropEnd(s[..|s| - 1], p) else s
  }

  /** The payload of a link: what follows the marker, without white space and then punctuation at its end. */
  function Payload(uri: string): Option<string>
  {
    var start := FindMarker(uri, 0);
    if !(SCHEME <= uri) || start.None? then None
    else
      var p := DropEnd(DropEnd(uri[start.value + |MARKER|..], IsSpace), IsPunctuation);
      if p == [] then None else Some(p)
  }

  function Octets(uri: string): Option<seq<byte>>
  {
    if Payload(uri).None? then None else B.Decode(Payload(uri).value)
  }

  /** A pasted text to the octets of its link. */
  function Import(text: string): Option<seq<byte>>
  {
    if LinkIn(text).None? then None else Octets(LinkIn(text).value)
  }

  method FindLink(text: string) returns (found: bool, link: string)
    ensures found <==> LinkIn(text).Some?
    ensures found ==> link == LinkIn(text).value
  {
    var start := FindMarker(text, 0);
    if start.None? {
      return false, "";
    }
    var end := |text|;
    var i := start.value;
    while i < |text|
      invariant start.value <= i <= |text| == end
      invariant WordEnd(text, start.value) == WordEnd(text, i)
    {
      if IsSpace(text[i]) {
        end := i;
        break;
      }
      i := i + 1;
    }
    return true, text[start.value..end];
  }

  method PayloadOf(uri: string) returns (ok: bool, payload: string)
    ensures ok <==> Payload(uri).Some?
    ensures ok ==> payload == Payload(uri).value
  {
    payload := "";
    if !(SCHEME <= uri) {
      return false, payload;
    }
    var pos := FindMarker(uri, 0);
    if pos.None? {
      return false, payload;
    }
    payload := uri[pos.value + |MARKER|..];
    ghost var whole := payload;
    while payload != [] && IsSpace(payload[|payload| - 1])
      invariant DropEnd(payload, IsSpace) == DropEnd(whole, IsSpace)
    {
      payload := payload[..|payload| - 1];
    }
    ghost var trimmed := payload;
    while payload != [] && IsPunctuation(payload[|payload| - 1])
      invariant DropEnd(payload, IsPunctuation) == DropEnd(trimmed, IsPunctuation)
    {
      payload := payload[..|payload| - 1];
    }
    ok := payload != [];
  }

  method ImportConnectionLink(text: string) returns (ok: bool, data: seq<byte>)
    ensures ok <==> Import(text).Some?
    ensures ok ==> data == Import(text).value
  {
    data := [];
    var link, payload;
    ok, link := FindLink(text);
    if !ok {
      return;
    }
    ok, payload := PayloadOf(link);
    if !ok {
      return;
    }
    ok, data := B.Base64UrlDecode(payload);
  }

  // ---------- A link inside a text ----------

  /** The marker cannot begin inside itself: no end of it is a start of it. */
  lemma MarkerHasNoBorder(d: nat)
    requires 0 < d < |MARKER|
    ensures MARKER[d..] != MARKER[..|MARKER| - d]
  {
    if MARKER[d] == MARKER[0] {
      assert d == 11;
      assert MARKER[d..][1] == MARKER[12] && MARKER[..|MARKER| - d][1] == MARKER[1];
    } else {
      assert MARKER[d..][0] == MARKER[d] && MARKER[..|MARKER| - d][0] == MARKER[0];
    }
  }

  predicate MarkerFree(s: string)
  {
    forall i: nat :: i < |s| ==> !MarkerAt(s, i)
  }

  /** Behind a text without the marker, the first marker is the one that was put there. */
  lemma FirstMarker(before: string, rest: string)
    requires MarkerFree(before)
    ensures FindMarker(before + MARKER + rest, 0) == Some(|before|)
  {
    var text, n := before + MARKER + rest, |before|;
    assert text[n..n + |MARKER|] == MARKER;
    assert MarkerAt(text, n);
    forall i: nat | i < n
      ensures !MarkerAt(text, i)
    {
      if i + |MARKER| <= n {
        assert text[i..i + |MARKER|] == before[i..i + |MARKER|];
        assert !MarkerAt(before, i);
      } else {
        MarkerHasNoBorder(n - i);
        var w := text[i..i + |MARKER|];
        assert w[n - i..] == MARKER[..|MARKER| - (n - i)];
      }
    }
  }

  predicate Wordless(after: string)
  {
    after == [] || IsSpace(after[0])
  }

  predicate Solid(s: string)
  {
    forall i :: 0 <= i < |s| ==> !IsSpace(s[i])
  }

  lemma {:induction false} WordEndsAt(before: string, word: string, after: string, from: nat)
    requires |before| <= from <= |before| + |word| && Solid(word) && Wordless(after)
    ensures WordEnd(before + word + after, from) == |before| + |word|
    decreases |before| + |word| - from
  {
    var text := before + word + after;
    if from < |before| + |word| {
      assert text[from] == word[from - |before|];
      WordEndsAt(before, word, after, from + 1);
    } else {
      assert after != [] ==> text[from] == after[0];
    }
  }

  lemma {:induction false} DropEndDrops(s: string, tail: string, p: char -> bool)
    requires (forall i :: 0 <= i < |tail| ==> p(tail[i])) && (s == [] || !p(s[|s| - 1]))
    ensures DropEnd(s + tail, p) == s
    decreases tail
  {
    if tail == [] {
      assert s + tail == s;
    } else {
      var whole := s + tail;
      assert whole[..|whole| - 1] == s + tail[..|tail| - 1];
      DropEndDrops(s, tail[..|tail| - 1], p);
    }
  }

  predicate Punctuation(s: string)
  {
    forall i :: 0 <= i < |s| ==> IsPunctuation(s[i])
  }

  /** Encoded octets hold neither white space nor the punctuation that is stripped. */
  lemma EncodedIsSolid(data: seq<byte>)
    ensures forall i :: 0 <= i < |B.Encode(data)| ==> !IsSpace(B.Encode(data)[i]) && !IsPunctuation(B.Encode(data)[i])
  {
    B.EncodedAlphabet(data);
    forall i | 0 <= i < |B.Encode(data)|
      ensures !IsSpace(B.Encode(data)[i]) && !IsPunctuation(B.Encode(data)[i])
    {
      LetterIsSolid(B.Encode(data)[i]);
    }
  }

  lemma LetterIsSolid(c: char)
    requires B.Value(B.Plain(c)).Some?
    ensures !IsSpace(c) && !IsPunctuation(c)
  {
  }

  /**
   A link written into a text is read back as the same octets: after any text without the marker, before any
   run of the stripped punctuation, and before the end or any white space with anything behind it.
   */
  lemma {:induction false} LinkSurvives(before: string, data: seq<byte>, punctuation: string, after: string)
    requires MarkerFree(before) && data != [] && Punctuation(punctuation) && Wordless(after)
    ensures Import(before + (MARKER + B.Encode(data) + punctuation) + after) == Some(data)
  {
    hide B.Encode, B.Decode;
    var body := B.Encode(data) + punctuation;
    var link := MARKER + B.Encode(data) + punctuation;
    var text := before + link + after;
    EncodedIsSolid(data);
    assert link == MARKER + body;
    assert text == before + MARKER + (body + after);
    FirstMarker(before, body + after);
    SolidLink(B.Encode(data), punctuation);
    WordEndsAt(before, link, after, |before|);
    assert text[|before|..|before| + |link|] == link;
    PayloadOfLink(data, punctuation);
    B.RoundTrip(data);
  }

  lemma SolidLink(encoded: string, punctuation: string)
    requires Solid(encoded) && Punctuation(punctuation)
    ensures Solid(MARKER + encoded + punctuation)
  {
    var link := MARKER + encoded + punctuation;
    forall i | 0 <= i < |link| ensures !IsSpace(link[i]) {
      if i < |MARKER| {
        assert link[i] == MARKER[i];
      } else if i < |MARKER| + |encoded| {
        assert link[i] == encoded[i - |MARKER|];
      } else {
        assert IsPunctuation(punctuation[i - |MARKER| - |encoded|]);
      }
    }
  }

  lemma {:induction false} PayloadOfLink(data: seq<byte>, punctuation: string)
    requires data != [] && Punctuation(punctuation)
    ensures Payload(MARKER + B.Encode(data) + punctuation) == Some(B.Encode(data))
  {
    hide B.Encode, DropEnd, FindMarker;
    var encoded := B.Encode(data);
    var link, body := MARKER + encoded + punctuation, encoded + punctuation;
    MarkedBody(encoded, punctuation);
    EncodedIsSolid(data);
    B.EncodedAlphabet(data);
    StrippedBody(encoded, punctuation);
  }

  lemma MarkedBody(encoded: string, punctuation: string)
    ensures var link := MARKER + encoded + punctuation;
            && SCHEME <= link && FindMarker(link, 0) == Some(0) && link[|MARKER|..] == encoded + punctuation
  {
    hide FindMarker;
    FirstMarker([], encoded + punctuation);
    SchemeLeads();
    Front(SCHEME, MARKER, encoded, punctuation);
  }

  lemma SchemeLeads()
    ensures SCHEME <= MARKER
  {
    assert SCHEME == MARKER[..|SCHEME|];
  }

  lemma Front(scheme: string, marker: string, a: string, b: string)
    requires scheme <= marker
    ensures scheme <= marker + a + b && (marker + a + b)[|marker|..] == a + b
    ensures marker + a + b == [] + marker + (a + b)
  {
  }

  lemma StrippedBody(encoded: string, punctuation: string)
    requires encoded != [] && Punctuation(punctuation)
    requires forall i :: 0 <= i < |encoded| ==> !IsSpace(encoded[i]) && !IsPunctuation(encoded[i])
    ensures DropEnd(DropEnd(encoded + punctuation, IsSpace), IsPunctuation) == encoded
  {
    hide DropEnd;
    var body := encoded + punctuation;
    assert punctuation != [] ==> body[|body| - 1] == punctuation[|punctuation| - 1];
    assert punctuation == [] ==> body[|body| - 1] == encoded[|encoded| - 1];
    assert body + [] == body;
    DropEndDrops(body, [], IsSpace);
    DropEndDrops(encoded, punctuation, IsPunctuation);
  }

  /** So a link in a sentence is read back: with any of these signs behind it, then a space, a tab, a new line or the end. */
  lemma LinkInSentence(before: string, data: seq<byte>, signs: string, after: string)
    requires MarkerFree(before) && data != [] && (forall c :: c in signs ==> c in ".,;:!?)]}")
    requires after == "" || after[0] in " \t\r\n"
    ensures Import(before + ("owalkie://connect/" + B.Encode(data) + signs) + after) == Some(data)
  {
    forall i | 0 <= i < |signs| ensures IsPunctuation(signs[i]) {
      SignIsPunctuation(signs[i]);
    }
    LinkSurvives(before, data, signs, after);
  }

  lemma SignIsPunctuation(c: char)
    requires c in ".,;:!?)]}"
    ensures IsPunctuation(c)
  {
  }
}
