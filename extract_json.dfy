/** The two `extractJSON` helpers that pull a JSON object out of a model's
    reply. Both look first for a fenced code block, optionally tagged `json`,
    and return its trimmed interior; then for the span from the first `{` to
    the last `}`. When neither is found the OpenRouter helper returns the
    reply unchanged and the Anthropic helper throws.

    The regular expressions are stated by what they match. Searching for
    ```` ```(?:json)?\s*([\s\S]*?)``` ```` from left to right, the first start
    that can match is the first fence `s` in the text: a later fence cannot
    help, because it either lies in the tag and white space after `s` (which
    hold no backtick) or after them, where no closing fence was found. At `s`
    the tag is taken when present and `\s*` takes all the white space; giving
    any of it back cannot uncover a closing fence, since neither `json` nor
    white space contains a backtick. The lazy body then ends at the first
    closing fence. The OpenRouter pattern also lets the body stop one
    character early at a newline that precedes the closing fence; `trim`
    removes that newline anyway, which is why the two helpers agree.
    `\{[\s\S]*\}` matches exactly when the last `}` comes after the first
    `{`, and then spans from the one to the other. */
module ExtractJson {
  import opened Wrappers
  import opened JsString
  import opened JsError

  /** A fence, three backticks, starts at `i`. */
  predicate Ticks(t: string, i: nat) {
    i + 3 <= |t| && t[i] == '`' && t[i + 1] == '`' && t[i + 2] == '`'
  }

  /** The tag `json` starts at `i`. */
  predicate JsonTag(t: string, i: nat) {
    i + 4 <= |t| && t[i] == 'j' && t[i + 1] == 's' && t[i + 2] == 'o' && t[i + 3] == 'n'
  }

  /** Where the OpenRouter pattern's body may end: `\n?` then a fence. */
  predicate Closer(t: string, i: nat) {
    Ticks(t, i) || (i < |t| && t[i] == '\n' && Ticks(t, i + 1))
  }

  /** The first fence at or after `from`. */
  function NextTicks(t: string, from: nat): (r: Option<nat>)
    ensures r.Some? ==> from <= r.value && Ticks(t, r.value)
    ensures r.Some? ==> forall k :: from <= k < r.value ==> !Ticks(t, k)
    ensures r.None? ==> forall k :: from <= k ==> !Ticks(t, k)
    decreases |t| - from
  {
    if from + 3 > |t| then None
    else if Ticks(t, from) then Some(from)
    else NextTicks(t, from + 1)
  }

  /** The first place at or after `from` where the OpenRouter body can end. */
  function NextCloser(t: string, from: nat): (r: Option<nat>)
    ensures r.Some? ==> from <= r.value && Closer(t, r.value)
    ensures r.Some? ==> forall k :: from <= k < r.value ==> !Closer(t, k)
    ensures r.None? ==> forall k :: from <= k ==> !Closer(t, k)
    decreases |t| - from
  {
    if from + 3 > |t| then None
    else if Closer(t, from) then Some(from)
    else NextCloser(t, from + 1)
  }

  /** Where the body of the block opened by the fence at `s` begins: after
      the fence, the `json` tag when it is there, and any white space. */
  function BodyStart(t: string, s: nat): (g: nat)
    requires Ticks(t, s)
    ensures s + 3 <= g <= |t|
  {
    SkipWs(t, if JsonTag(t, s + 3) then s + 7 else s + 3)
  }

  /** The capture group of ```` /```(?:json)?\s*\n?([\s\S]*?)\n?```/ ````, with
      the indices it spans. */
  function FenceOpenRouter(t: string): (r: Option<(nat, nat)>)
    ensures r.Some? ==> r.value.0 <= r.value.1 <= |t|
  {
    match NextTicks(t, 0)
    case None => None
    case Some(s) =>
      var g := BodyStart(t, s);
      match NextCloser(t, g)
      case None => None
      case Some(e) => Some((g, e))
  }

  /** The capture group of ```` /```(?:json)?\s*([\s\S]*?)```/ ````, with the
      indices it spans. */
  function FenceAnthropic(t: string): (r: Option<(nat, nat)>)
    ensures r.Some? ==> r.value.0 <= r.value.1 <= |t|
  {
    match NextTicks(t, 0)
    case None => None
    case Some(s) =>
      var g := BodyStart(t, s);
      match NextTicks(t, g)
      case None => None
      case Some(c) => Some((g, c))
  }

  /** The match of `/\{[\s\S]*\}/`, as the indices of its first and last character. */
  function BraceSpan(t: string): (r: Option<(nat, nat)>)
    ensures r.Some? ==> r.value.0 < r.value.1 < |t|
  {
    match IndexOfChar(t, '{', 0)
    case None => None
    case Some(i) =>
      match LastIndexOf(t, '}')
      case None => None
      case Some(j) => if i < j then Some((i, j)) else None
  }

  predicate IsSubstring(r: string, t: string) {
    exists i, j :: 0 <= i <= j <= |t| && r == t[i..j]
  }

  /** The trimmed text of `t[g..e]` is itself a slice of `t`. */
  lemma TrimSlice(t: string, g: nat, e: nat)
    requires g <= e <= |t|
    ensures IsSubstring(Trim(t[g..e]), t)
  {
    var b := t[g..e];
    var lo, hi := TrimLo(b), TrimHi(b);
    assert Trim(b) == t[g + lo..g + hi];
  }

  /** `extractJSON` of the OpenRouter provider; whatever it returns is a
      contiguous piece of the reply. */
  function ExtractOpenRouter(t: string): (r: string)
    ensures IsSubstring(r, t)
  {
    match FenceOpenRouter(t)
    case Some((g, e)) => TrimSlice(t, g, e); Trim(t[g..e])
    case None =>
      match BraceSpan(t)
      case Some((i, j)) => t[i..j + 1]
      case None => assert t == t[0..|t|]; t
  }

  const ANTHROPIC_EXTRACT_ERROR: string := "Could not extract JSON from Anthropic response"

  /** `extractJSON` of the Anthropic provider; what it returns is a
      contiguous piece of the reply, and when it throws it throws only its
      own message. */
  function ExtractAnthropic(t: string): (r: Result<string, Thrown>)
    ensures r.Success? ==> IsSubstring(r.value, t)
    ensures r.Failure? ==> r.error == NewError(ANTHROPIC_EXTRACT_ERROR)
  {
    match FenceAnthropic(t)
    case Some((g, c)) => TrimSlice(t, g, c); Success(Trim(t[g..c]))
    case None =>
      match BraceSpan(t)
      case Some((i, j)) => Success(t[i..j + 1])
      case None => Failure(NewError(ANTHROPIC_EXTRACT_ERROR))
  }

  /** `s` is the first fence of `t`, and `c` the first fence after the body
      of the block it opens begins. */
  predicate FenceBlock(t: string, s: nat, c: nat) {
    && Ticks(t, s) && (forall k: nat :: k < s ==> !Ticks(t, k))
    && BodyStart(t, s) <= c && Ticks(t, c)
    && (forall k :: BodyStart(t, s) <= k < c ==> !Ticks(t, k))
  }

  /** `t` has a `{` at `i` and none before it, a `}` at `j` and none after
      it, and `i < j`. */
  predicate BraceBlock(t: string, i: nat, j: nat) {
    && i < j < |t| && t[i] == '{' && t[j] == '}'
    && (forall k :: 0 <= k < i ==> t[k] != '{')
    && (forall k :: j < k < |t| ==> t[k] != '}')
  }

  /** No `{` comes before a `}`. */
  predicate NoBraces(t: string) {
    forall i, j :: 0 <= i < j < |t| && t[i] == '{' ==> t[j] != '}'
  }

  /** The OpenRouter body ends at the first fence after it starts, or one
      character earlier when that character is a newline. */
  lemma OpenRouterCloser(t: string, g: nat, c: nat)
    requires g <= c && Ticks(t, c) && forall k :: g <= k < c ==> !Ticks(t, k)
    ensures NextCloser(t, g) == Some(if g < c && t[c - 1] == '\n' then c - 1 else c)
  {
    var r := NextCloser(t, g);
    var e := if g < c && t[c - 1] == '\n' then c - 1 else c;
    assert Closer(t, e);
    assert forall k :: g <= k < e ==> !Closer(t, k) by {
      forall k | g <= k < e ensures !Closer(t, k) {
        assert !Ticks(t, k);
        if k + 1 < c { assert !Ticks(t, k + 1); }
      }
    }
  }

  /** A trailing newline in the body is removed by `trim`. */
  lemma TrimDropsNewline(t: string, g: nat, c: nat)
    requires g < c <= |t| && t[c - 1] == '\n'
    ensures Trim(t[g..c - 1]) == Trim(t[g..c])
  {
    assert t[g..c] == t[g..c - 1] + "\n" + [];
    TrimIgnoresWs([], t[g..c - 1], "\n");
    assert [] + t[g..c - 1] + "\n" == t[g..c - 1] + "\n" + [];
  }

  /** Fence first: when `t` has a fenced block, both helpers return its
      trimmed interior, whatever braces the text holds. */
  lemma FenceWins(t: string, s: nat, c: nat)
    requires FenceBlock(t, s, c)
    ensures ExtractOpenRouter(t) == Trim(t[BodyStart(t, s)..c])
    ensures ExtractAnthropic(t) == Success(Trim(t[BodyStart(t, s)..c]))
  {
    var g := BodyStart(t, s);
    assert NextTicks(t, 0) == Some(s);
    assert NextTicks(t, g) == Some(c);
    OpenRouterCloser(t, g, c);
    if g < c && t[c - 1] == '\n' {
      TrimDropsNewline(t, g, c);
    }
  }

  /** Without a fenced block, the OpenRouter pattern fails as well. */
  lemma NoFenceBlock(t: string)
    requires forall s, c :: !FenceBlock(t, s, c)
    ensures FenceOpenRouter(t).None? && FenceAnthropic(t).None?
  {
    match NextTicks(t, 0)
    case None =>
    case Some(s) =>
      var g := BodyStart(t, s);
      match NextTicks(t, g) {
        case None => NoCloserTicksNone(t, g);
        case Some(c) => assert FenceBlock(t, s, c);
      }
  }

  /** When no fence follows `g`, the OpenRouter body cannot end after `g`. */
  lemma NoCloserTicksNone(t: string, g: nat)
    requires NextTicks(t, g).None?
    ensures NextCloser(t, g).None?
  {
    match NextCloser(t, g)
    case None =>
    case Some(e) => assert false;
  }

  /** Without a fenced block, both helpers return the span from the first
      `{` to the last `}`. */
  lemma BraceFallback(t: string, i: nat, j: nat)
    requires forall s, c :: !FenceBlock(t, s, c)
    requires BraceBlock(t, i, j)
    ensures ExtractOpenRouter(t) == t[i..j + 1]
    ensures ExtractAnthropic(t) == Success(t[i..j + 1])
  {
    NoFenceBlock(t);
    assert IndexOfChar(t, '{', 0) == Some(i);
    assert LastIndexOf(t, '}') == Some(j);
  }

  /** With neither a fenced block nor a brace span, the OpenRouter helper
      returns the reply unchanged and the Anthropic helper throws. */
  lemma NothingFound(t: string)
    requires forall s, c :: !FenceBlock(t, s, c)
    requires NoBraces(t)
    ensures ExtractOpenRouter(t) == t
    ensures ExtractAnthropic(t) == Failure(NewError(ANTHROPIC_EXTRACT_ERROR))
  {
    NoFenceBlock(t);
    match IndexOfChar(t, '{', 0)
    case None =>
    case Some(i) =>
      match LastIndexOf(t, '}')
      case None =>
      case Some(j) => assert j <= i;
  }

  /** The two helpers differ only in their fallback: whenever the Anthropic
      helper returns, the OpenRouter helper returns the same text, and when
      it throws, the OpenRouter helper hands back the reply untouched. */
  lemma {:induction false} ExtractorsAgree(t: string)
    ensures ExtractAnthropic(t).Success? ==> ExtractAnthropic(t).value == ExtractOpenRouter(t)
    ensures ExtractAnthropic(t).Failure? ==> ExtractOpenRouter(t) == t
  {
    match NextTicks(t, 0)
    case Some(s) =>
      var g := BodyStart(t, s);
      match NextTicks(t, g) {
        case Some(c) => assert FenceBlock(t, s, c); FenceWins(t, s, c);
        case None => NoCloserTicksNone(t, g); AgreeWithoutFence(t);
      }
    case None => AgreeWithoutFence(t);
  }

  /** Both fence searches failing, the helpers agree on the brace span. */
  lemma AgreeWithoutFence(t: string)
    requires FenceOpenRouter(t).None? && FenceAnthropic(t).None?
    ensures ExtractAnthropic(t).Success? ==> ExtractAnthropic(t).value == ExtractOpenRouter(t)
    ensures ExtractAnthropic(t).Failure? ==> ExtractOpenRouter(t) == t
  {
  }

  // Two replies worked through: a fenced block tagged `json`, and an object
  // embedded in prose. The texts are spelled out character by character so
  // that the verifier can index into them.

  const OBJECT_TEXT: string := ['{', '"', 'a', '"', ':', '1', '}']
  const FENCED_REPLY: string :=
    ['`', '`', '`', 'j', 's', 'o', 'n', '\n'] + (OBJECT_TEXT + ['\n']) + ['`', '`', '`']

  lemma FencedReplyBlock()
    ensures FenceBlock(FENCED_REPLY, 0, 16) && BodyStart(FENCED_REPLY, 0) == 8
    ensures FENCED_REPLY[8..16] == OBJECT_TEXT + ['\n']
  {
    assert JsonTag(FENCED_REPLY, 3);
    assert SkipWs(FENCED_REPLY, 8) == 8;
    SliceMiddle(['`', '`', '`', 'j', 's', 'o', 'n', '\n'], OBJECT_TEXT + ['\n'], ['`', '`', '`']);
  }

  lemma FencedReplyTrim()
    ensures Trim(OBJECT_TEXT + ['\n']) == OBJECT_TEXT
  {
    assert OBJECT_TEXT + ['\n'] == [] + OBJECT_TEXT + ['\n'];
    TrimIgnoresWs([], OBJECT_TEXT, ['\n']);
    assert OBJECT_TEXT == [] + OBJECT_TEXT + [];
    TrimUnique([], OBJECT_TEXT, []);
  }

  /** A fenced block tagged `json` yields its interior without the newlines. */
  lemma FencedReplyExample()
    ensures ExtractOpenRouter("```json\n{\"a\":1}\n```") == "{\"a\":1}"
    ensures ExtractAnthropic("```json\n{\"a\":1}\n```") == Success("{\"a\":1}")
  {
    assert FENCED_REPLY == "```json\n{\"a\":1}\n```";
    assert OBJECT_TEXT == "{\"a\":1}";
    FencedReplyBlock();
    FenceWins(FENCED_REPLY, 0, 16);
    FencedReplyTrim();
  }

  /** An object in prose yields the span from its `{` to its `}`. */
  lemma ProseReplyExample()
    ensures ExtractOpenRouter("Sure! {\"a\":1} Hope that helps") == "{\"a\":1}"
    ensures ExtractAnthropic("Sure! {\"a\":1} Hope that helps") == Success("{\"a\":1}")
  {
    var pre := ['S', 'u', 'r', 'e', '!', ' '];
    var post := [' ', 'H', 'o', 'p', 'e', ' ', 't', 'h', 'a', 't', ' ', 'h', 'e', 'l', 'p', 's'];
    var t := pre + OBJECT_TEXT + post;
    assert t == "Sure! {\"a\":1} Hope that helps";
    assert OBJECT_TEXT == "{\"a\":1}";
    assert forall k :: 0 <= k < |t| ==> t[k] != '`';
    assert BraceBlock(t, 6, 12);
    BraceFallback(t, 6, 12);
    SliceMiddle(pre, OBJECT_TEXT, post);
  }
}
