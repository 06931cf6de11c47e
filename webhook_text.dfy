/** String operations the WhatsApp webhook relies on: Python's `strip`, `split`, `replace` and `startswith`,
  * the code-fence cleaner applied to the classifier's reply, the JID-to-phone rule and the `/login` test. */
module WebhookText {

  /** Python's `str.isspace` for one character: the separators `strip()` and `split()` use. */
  predicate IsSpace(c: char)
  {
    c == ' ' || c == '\t' || c == '\n' || c == '\r' || c == '\U{B}' || c == '\U{C}'
    || ('\U{1C}' <= c <= '\U{1F}') || c == '\U{85}' || c == '\U{A0}' || c == '\U{1680}'
    || ('\U{2000}' <= c <= '\U{200A}') || c == '\U{2028}' || c == '\U{2029}' || c == '\U{202F}'
    || c == '\U{205F}' || c == '\U{3000}'
  }

  /** `lstrip()`: drops the leading whitespace and nothing else. */
  function TrimLeft(s: string): (r: string)
    ensures |r| <= |s| && r == s[|s| - |r|..]
    ensures r == [] || !IsSpace(r[0])
    ensures forall i :: 0 <= i < |s| - |r| ==> IsSpace(s[i])
  {
    if s != [] && IsSpace(s[0]) then TrimLeft(s[1..]) else s
  }

  /** `rstrip()`: drops the trailing whitespace and nothing else. */
  function TrimRight(s: string): (r: string)
    ensures |r| <= |s| && r == s[..|r|]
    ensures r == [] || !IsSpace(r[|r| - 1])
    ensures forall i :: |r| <= i < |s| ==> IsSpace(s[i])
  {
    if s != [] && IsSpace(s[|s| - 1]) then TrimRight(s[..|s| - 1]) else s
  }

  /** `strip()`. */
  function Strip(s: string): (r: string)
    ensures r == [] || (!IsSpace(r[0]) && !IsSpace(r[|r| - 1]))
  {
    TrimRight(TrimLeft(s))
  }

  /** Text with no whitespace at either end is left as it is. */
  lemma StripKeeps(s: string)
    requires s == [] || (!IsSpace(s[0]) && !IsSpace(s[|s| - 1]))
    ensures Strip(s) == s
  {
  }

  lemma StripIdempotent(s: string)
    ensures Strip(Strip(s)) == Strip(s)
  {
    StripKeeps(Strip(s));
  }

  predicate StartsWith(s: string, p: string)
  {
    |p| <= |s| && s[..|p|] == p
  }

  const Fence := "```"

  /** Three backticks start at position `i` of `s`. */
  predicate FenceAt(s: string, i: int)
  {
    0 <= i && i + 3 <= |s| && s[i] == '`' && s[i + 1] == '`' && s[i + 2] == '`'
  }

  predicate FenceFree(s: string)
  {
    forall i :: 0 <= i < |s| ==> !FenceAt(s, i)
  }

  /** The text of `s` before its first fence, or all of `s` when it has none. */
  function UntilFence(s: string): (r: string)
    ensures |r| <= |s| && r == s[..|r|]
  {
    if |s| < 3 then s
    else if FenceAt(s, 0) then []
    else [s[0]] + UntilFence(s[1..])
  }

  /** For a text that starts with a fence, `text.split("```")[1]` is what follows it up to the next fence. */
  function SecondPiece(s: string): string
    requires StartsWith(s, Fence)
  {
    UntilFence(s[3..])
  }

  /** The code-block marker removal: the text between the opening fence and the next one, less a `json` tag. */
  function Unfence(r: string): string
  {
    if StartsWith(r, Fence) then
      var piece := SecondPiece(r);
      if StartsWith(piece, "json") then piece[4..] else piece
    else r
  }

  /** The cleaning `process_with_gemini` applies before `json.loads`. */
  function CleanReply(raw: string): string
  {
    Strip(Unfence(Strip(raw)))
  }

  /** A closing fence is found right after `p` when `p` holds no fence and does not end in a backtick. */
  lemma {:induction false} UntilClosingFence(p: string)
    requires FenceFree(p)
    requires p == [] || p[|p| - 1] != '`'
    ensures UntilFence(p + Fence) == p
  {
    if p == [] {
      assert p + Fence == Fence;
      assert FenceAt(Fence, 0);
    } else {
      var s := p + Fence;
      assert s[0] == p[0];
      if |p| >= 3 {
        assert !FenceAt(p, 0);
      }
      assert !FenceAt(s, 0);
      assert s[1..] == p[1..] + Fence;
      forall i ensures !FenceAt(p[1..], i) {
        if FenceAt(p[1..], i) {
          assert FenceAt(p, i + 1);
        }
      }
      UntilClosingFence(p[1..]);
    }
  }

  lemma FenceFreeBehindWord(w: string, p: string)
    requires FenceFree(p)
    requires forall i :: 0 <= i < |w| ==> w[i] != '`'
    ensures FenceFree(w + p)
  {
    forall i | 0 <= i < |w + p| ensures !FenceAt(w + p, i) {
      if i >= |w| {
        assert !FenceAt(p, i - |w|);
      }
    }
  }

  lemma StripKeepsFenced(s: string)
    requires |s| >= 1 && s[0] == '`' && s[|s| - 1] == '`'
    ensures Strip(s) == s
  {
    StripKeeps(s);
  }

  /** The whole cleaning of a reply that is already stripped and opens with a fence. */
  lemma CleanFenced(s: string, body: string)
    requires Strip(s) == s
    requires Unfence(s) == body
    ensures CleanReply(s) == Strip(body)
  {
  }

  lemma JsonPiece(p: string)
    requires FenceFree(p)
    requires p == [] || p[|p| - 1] != '`'
    ensures SecondPiece("```json" + p + Fence) == "json" + p
  {
    var s := "```json" + p + Fence;
    assert s[..3] == Fence;
    assert s[3..] == "json" + p + Fence;
    FenceFreeBehindWord("json", p);
    UntilClosingFence("json" + p);
  }

  lemma PlainPiece(p: string)
    requires FenceFree(p)
    requires p == [] || p[|p| - 1] != '`'
    ensures SecondPiece(Fence + p + Fence) == p
  {
    var s := Fence + p + Fence;
    assert s[..3] == Fence;
    assert s[3..] == p + Fence;
    UntilClosingFence(p);
  }

  lemma UnfenceTagged(s: string, p: string)
    requires StartsWith(s, Fence)
    requires SecondPiece(s) == "json" + p
    ensures Unfence(s) == p
  {
    assert ("json" + p)[..4] == "json";
  }

  lemma UnfenceUntagged(s: string, p: string)
    requires StartsWith(s, Fence)
    requires SecondPiece(s) == p && !StartsWith(p, "json")
    ensures Unfence(s) == p
  {
  }

  /** A reply wrapped as a `json` code block is cleaned back to its stripped body. */
  lemma JsonFenceRoundTrip(p: string)
    requires FenceFree(p)
    requires p == [] || p[|p| - 1] != '`'
    ensures CleanReply("```json" + p + Fence) == Strip(p)
  {
    var s := "```json" + p + Fence;
    assert s[0] == '`' && s[|s| - 1] == '`' && s[..3] == Fence;
    StripKeepsFenced(s);
    JsonPiece(p);
    UnfenceTagged(s, p);
    CleanFenced(s, p);
  }

  /** A reply wrapped as a plain code block is cleaned back to its stripped body, unless the body starts with `json`. */
  lemma PlainFenceRoundTrip(p: string)
    requires FenceFree(p)
    requires p == [] || p[|p| - 1] != '`'
    requires !StartsWith(p, "json")
    ensures CleanReply(Fence + p + Fence) == Strip(p)
  {
    var s := Fence + p + Fence;
    assert s[0] == '`' && s[|s| - 1] == '`' && s[..3] == Fence;
    StripKeepsFenced(s);
    PlainPiece(p);
    UnfenceUntagged(s, p);
    CleanFenced(s, p);
  }

  /** A reply that does not open with a fence is only whitespace-stripped. */
  lemma UnfencedOnlyStripped(raw: string)
    requires !StartsWith(Strip(raw), Fence)
    ensures CleanReply(raw) == Strip(raw)
  {
    StripIdempotent(raw);
  }

  /** `s.replace(pat, "")`: every occurrence of `pat`, found left to right without overlap, is removed. */
  function RemoveAll(s: string, pat: string): (r: string)
    requires pat != []
    ensures |r| <= |s|
    decreases |s|
  {
    if |s| < |pat| then s
    else if s[..|pat|] == pat then RemoveAll(s[|pat|..], pat)
    else [s[0]] + RemoveAll(s[1..], pat)
  }

  const JidSuffix := "@s.whatsapp.net"

  /** The phone number of a WhatsApp JID. */
  function PhoneOf(remoteJid: string): string
  {
    RemoveAll(remoteJid, JidSuffix)
  }

  /** The JID of a number is mapped back to that number. */
  lemma {:induction false} PhoneOfJid(n: string)
    requires forall i :: 0 <= i < |n| ==> n[i] != '@'
    ensures PhoneOf(n + JidSuffix) == n
  {
    var s := n + JidSuffix;
    if n == [] {
      assert s == JidSuffix;
      assert s[|JidSuffix|..] == [];
    } else {
      assert s[0] == n[0] != '@';
      assert s[..|JidSuffix|] != JidSuffix by {
        assert s[..|JidSuffix|][0] == n[0];
      }
      assert s[1..] == n[1..] + JidSuffix;
      PhoneOfJid(n[1..]);
    }
  }

  /** A JID with no `@` at all, which is not a WhatsApp user JID, is kept whole. */
  lemma {:induction false} PhoneOfNoAt(s: string)
    requires forall i :: 0 <= i < |s| ==> s[i] != '@'
    ensures PhoneOf(s) == s
  {
    if |s| >= |JidSuffix| {
      assert s[..|JidSuffix|][0] == s[0];
      assert s[..|JidSuffix|] != JidSuffix;
      PhoneOfNoAt(s[1..]);
      assert [s[0]] + s[1..] == s;
    }
  }

  /** Lower-casing of one character where it matters for the `/login` test. */
  function AsciiLower(c: char): (r: char)
    ensures 'A' <= c <= 'Z' ==> r as int == c as int + 32
    ensures !('A' <= c <= 'Z') ==> r == c
  {
    if 'A' <= c <= 'Z' then (c as int + 32) as char else c
  }

  const LoginCommand := "/login"

  /** `text.lower().startswith("/login")`. */
  predicate IsLoginCommand(text: string)
  {
    |text| >= 6 && forall i :: 0 <= i < 6 ==> AsciiLower(text[i]) == LoginCommand[i]
  }

  lemma LoginCommandCaseInsensitive()
    ensures IsLoginCommand("/LOGIN a b") && IsLoginCommand("/Login") && !IsLoginCommand("/logout")
    ensures !IsLoginCommand(" /login")
  {
    assert AsciiLower('L') == 'l' && AsciiLower('O') == 'o' && AsciiLower('G') == 'g';
    assert AsciiLower('I') == 'i' && AsciiLower('N') == 'n';
    assert "/logout"[5] == 'u';
    assert " /login"[0] == ' ';
  }

  /** The longest prefix of `s` without whitespace. */
  function TakeWord(s: string): (r: string)
    ensures |r| <= |s| && r == s[..|r|]
    ensures forall i :: 0 <= i < |r| ==> !IsSpace(r[i])
    ensures |r| < |s| ==> IsSpace(s[|r|])
  {
    if s == [] || IsSpace(s[0]) then [] else [s[0]] + TakeWord(s[1..])
  }

  predicate IsWord(w: string)
  {
    w != [] && forall i :: 0 <= i < |w| ==> !IsSpace(w[i])
  }

  /** `s.split()`: the maximal whitespace-free runs of `s`, in order. */
  function Words(s: string): (r: seq<string>)
    ensures forall k :: 0 <= k < |r| ==> IsWord(r[k])
    decreases |s|
  {
    var t := TrimLeft(s);
    if t == [] then []
    else
      var w := TakeWord(t);
      [w] + Words(t[|w|..])
  }

  /** Words joined by single spaces. */
  function Unwords(ws: seq<string>): string
  {
    if ws == [] then []
    else if |ws| == 1 then ws[0]
    else ws[0] + " " + Unwords(ws[1..])
  }

  lemma {:induction false} TakeWordOfWord(w: string, rest: string)
    requires IsWord(w)
    requires rest == [] || IsSpace(rest[0])
    ensures TakeWord(w + rest) == w
  {
    var t := TakeWord(w + rest);
    assert t == (w + rest)[..|t|];
    assert (w + rest)[..|w|] == w;
  }

  lemma WordsOfWordThen(w: string, rest: string)
    requires IsWord(w)
    requires rest == [] || IsSpace(rest[0])
    ensures Words(w + rest) == [w] + Words(rest)
  {
    var s := w + rest;
    assert s[0] == w[0];
    assert TrimLeft(s) == s;
    TakeWordOfWord(w, rest);
    assert s[|w|..] == rest;
  }

  lemma WordsAfterSpace(rest: string)
    ensures Words(" " + rest) == Words(rest)
  {
    var s := " " + rest;
    assert s[1..] == rest;
    assert TrimLeft(s) == TrimLeft(rest);
  }

  lemma UnwordsSingle(w: string)
    requires IsWord(w)
    ensures Words(Unwords([w])) == [w]
  {
    WordsOfWordThen(w, []);
    assert w + [] == w;
  }

  lemma UnwordsStep(ws: seq<string>)
    requires |ws| >= 2 && IsWord(ws[0])
    requires Words(Unwords(ws[1..])) == ws[1..]
    ensures Words(Unwords(ws)) == ws
  {
    var tail := Unwords(ws[1..]);
    assert Unwords(ws) == ws[0] + (" " + tail);
    WordsOfWordThen(ws[0], " " + tail);
    WordsAfterSpace(tail);
    assert [ws[0]] + ws[1..] == ws;
  }

  /** Splitting words joined by spaces gives the words back. */
  lemma {:induction false} WordsUnwords(ws: seq<string>)
    requires forall k :: 0 <= k < |ws| ==> IsWord(ws[k])
    ensures Words(Unwords(ws)) == ws
    decreases |ws|
  {
    if ws == [] {
    } else if |ws| == 1 {
      assert ws == [ws[0]];
      UnwordsSingle(ws[0]);
    } else {
      WordsUnwords(ws[1..]);
      UnwordsStep(ws);
    }
  }
}
