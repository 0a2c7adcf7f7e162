/** The placeholders of the negotiation script template and the three
    chained `replace` calls that fill them in.

    As written, line 47 of the template reads `${'{'}totalSavings{'}'}`. The
    first `${'{'}` is a substitution and renders `{`, but `{'}'}` has no `$`
    and is kept as literal text, so the template holds
    `{totalSavings{'}'}` and not the `{totalSavings}` placeholder that the
    third `replace` looks for. `NEGOTIATION_SCRIPT_PROMPT_AS_WRITTEN` is
    that text, and `SavingsPlaceholderMissing` shows the savings never reach
    the prompt. `NEGOTIATION_SCRIPT_PROMPT` is the template with the
    placeholder its authors evidently meant, and `ScriptPrompt` fills that
    one in; the providers send `ScriptPromptAsWritten`, as the code does. */
module Prompts {
  import opened JsString
  import opened PromptText

  const PROVIDER_PLACEHOLDER: string := "{provider}"
  const FINDINGS_PLACEHOLDER: string := "{findings}"
  const SAVINGS_PLACEHOLDER: string := "{totalSavings}"

  const ISSUES_LABEL: string := "\nIssues found: "
  const SAVINGS_LABEL: string := "\nTotal potential savings: "

  /** What line 47 renders after its label. */
  const SAVINGS_AS_WRITTEN: string := "{totalSavings" + "{'}'}"

  /** The negotiation script template with the given text after the
      savings label. */
  function ScriptTemplate(savingsSlot: string): string {
    SCRIPT_INTRO + PROVIDER_PLACEHOLDER + ISSUES_LABEL + FINDINGS_PLACEHOLDER + SAVINGS_LABEL +
    savingsSlot + SCRIPT_TAIL
  }

  const NEGOTIATION_SCRIPT_PROMPT_AS_WRITTEN: string := ScriptTemplate(SAVINGS_AS_WRITTEN)

  const NEGOTIATION_SCRIPT_PROMPT: string := ScriptTemplate(SAVINGS_PLACEHOLDER)

  /** The negotiation prompt sent for a provider name, the findings as JSON
      text and the savings as display text: each placeholder's first
      occurrence replaced in turn, `$` patterns in the values expanded as
      `replace` expands them. */
  function ScriptPrompt(provider: string, findingsJson: string, savingsText: string): (p: string)
    ensures |SCRIPT_INTRO| <= |p| && p[..|SCRIPT_INTRO|] == SCRIPT_INTRO
  {
    FilledKeepsIntro(SAVINGS_PLACEHOLDER, provider, findingsJson, savingsText);
    Replace(Replace(Replace(NEGOTIATION_SCRIPT_PROMPT,
      PROVIDER_PLACEHOLDER, provider),
      FINDINGS_PLACEHOLDER, findingsJson),
      SAVINGS_PLACEHOLDER, savingsText)
  }

  /** The same chain applied to the template as written; this is the prompt
      the three providers send. Whatever the values hold, it still opens
      with the template's introduction. */
  function ScriptPromptAsWritten(provider: string, findingsJson: string, savingsText: string): (p: string)
    ensures |SCRIPT_INTRO| <= |p| && p[..|SCRIPT_INTRO|] == SCRIPT_INTRO
  {
    FilledKeepsIntro(SAVINGS_AS_WRITTEN, provider, findingsJson, savingsText);
    Replace(Replace(Replace(NEGOTIATION_SCRIPT_PROMPT_AS_WRITTEN,
      PROVIDER_PLACEHOLDER, provider),
      FINDINGS_PLACEHOLDER, findingsJson),
      SAVINGS_PLACEHOLDER, savingsText)
  }

  /** None of the three replacements reaches into the introduction, which
      holds no `{`. */
  lemma FilledKeepsIntro(savingsSlot: string, provider: string, findingsJson: string, savingsText: string)
    ensures var p := Replace(Replace(Replace(ScriptTemplate(savingsSlot),
              PROVIDER_PLACEHOLDER, provider),
              FINDINGS_PLACEHOLDER, findingsJson),
              SAVINGS_PLACEHOLDER, savingsText);
      |SCRIPT_INTRO| <= |p| && p[..|SCRIPT_INTRO|] == SCRIPT_INTRO
  {
    ScriptIntroBraceFree();
    var t := ScriptTemplate(savingsSlot);
    assert t[..|SCRIPT_INTRO|] == SCRIPT_INTRO;
    var t1 := Replace(t, PROVIDER_PLACEHOLDER, provider);
    ReplaceKeepsPrefix(SCRIPT_INTRO, t, PROVIDER_PLACEHOLDER, provider);
    var t2 := Replace(t1, FINDINGS_PLACEHOLDER, findingsJson);
    ReplaceKeepsPrefix(SCRIPT_INTRO, t1, FINDINGS_PLACEHOLDER, findingsJson);
    ReplaceKeepsPrefix(SCRIPT_INTRO, t2, SAVINGS_PLACEHOLDER, savingsText);
  }

  // Occurrences of a placeholder.

  /** Every `{` in `s` is followed by a line break. */
  predicate OpensLine(s: string) {
    forall i :: 0 <= i < |s| && s[i] == '{' ==> i + 1 < |s| && s[i + 1] == '\n'
  }

  /** `p` has the shape of a placeholder: a `{`, then a character other than
      a line break, and no other `{`. */
  predicate PlaceholderShaped(p: string) {
    2 <= |p| && p[0] == '{' && p[1] != '\n' && '{' !in p[1..]
  }

  ghost predicate Absent(s: string, p: string) {
    forall k: nat :: !At(s, k, p)
  }

  /** `p` occurs in `s` at `k` and nowhere else. */
  ghost predicate OnlyAt(s: string, p: string, k: nat) {
    At(s, k, p) && forall j: nat :: At(s, j, p) ==> j == k
  }

  /** `p` occurs in `s` at `k` and nowhere before. */
  predicate FirstAt(s: string, p: string, k: nat) {
    At(s, k, p) && forall j: nat :: j < k ==> !At(s, j, p)
  }

  /** No occurrence of `p` in `x + y` starts inside `x`. */
  predicate NoStartIn(x: string, y: string, p: string) {
    forall k: nat :: k < |x| ==> !At(x + y, k, p)
  }

  lemma AtShift(x: string, y: string, p: string, k: nat)
    ensures At(y, k, p) <==> At(x + y, |x| + k, p)
  {
    if k + |p| <= |y| {
      assert (x + y)[|x| + k..|x| + k + |p|] == y[k..k + |p|];
    }
  }

  lemma AtChar(s: string, k: nat, p: string, i: nat)
    requires At(s, k, p) && i < |p|
    ensures s[k + i] == p[i]
  {
    assert s[k..k + |p|][i] == s[k + i];
  }

  lemma OpensLineConcat(x: string, y: string)
    requires OpensLine(x) && OpensLine(y)
    ensures OpensLine(x + y)
  {
    forall i | 0 <= i < |x + y| && (x + y)[i] == '{'
      ensures i + 1 < |x + y| && (x + y)[i + 1] == '\n'
    {
      if i >= |x| {
        assert (x + y)[i] == y[i - |x|];
      }
    }
  }

  lemma {:induction false} OpensLineConcatAll(parts: seq<string>)
    requires forall i :: 0 <= i < |parts| ==> OpensLine(parts[i])
    ensures OpensLine(Concat(parts))
    decreases |parts|
  {
    if parts != [] {
      OpensLineConcatAll(parts[..|parts| - 1]);
      OpensLineConcat(Concat(parts[..|parts| - 1]), parts[|parts| - 1]);
    }
  }

  lemma PartsOpenLines(parts: seq<string>)
    requires forall i :: 0 <= i < |parts| ==> parts[i] == OPEN_BRACE_LINE || '{' !in parts[i]
    ensures OpensLine(Concat(parts))
  {
    forall i | 0 <= i < |parts| ensures OpensLine(parts[i]) {
      if parts[i] != OPEN_BRACE_LINE {
        assert forall j :: 0 <= j < |parts[i]| ==> parts[i][j] in parts[i];
      }
    }
    OpensLineConcatAll(parts);
  }

  lemma TemplatePartsOpenLines()
    ensures OpensLine(BILL_ANALYSIS_PROMPT) && OpensLine(SCRIPT_TAIL)
    ensures OpensLine(SCRIPT_INTRO) && OpensLine(ISSUES_LABEL) && OpensLine(SAVINGS_LABEL)
  {
    BillAnalysisPartsBraceFree();
    PartsOpenLines(BILL_ANALYSIS_PARTS);
    ScriptTailPartsBraceFree();
    PartsOpenLines(SCRIPT_TAIL_PARTS);
    ScriptIntroBraceFree();
    assert forall j :: 0 <= j < |SCRIPT_INTRO| ==> SCRIPT_INTRO[j] in SCRIPT_INTRO;
  }

  /** A character that differs from the pattern's rules out an occurrence. */
  lemma Mismatch(s: string, k: nat, p: string, i: nat)
    requires i < |p| && (k + i < |s| ==> s[k + i] != p[i])
    ensures !At(s, k, p)
  {
    if k + |p| <= |s| {
      assert s[k..k + |p|][i] == s[k + i];
    }
  }

  /** Text whose every `{` opens a line holds no placeholder-shaped pattern,
      not even one that runs on into what follows. */
  lemma NoStartInOpensLine(x: string, y: string, p: string)
    requires OpensLine(x) && PlaceholderShaped(p)
    ensures NoStartIn(x, y, p)
  {
    forall k: nat | k < |x| ensures !At(x + y, k, p) {
      assert (x + y)[k] == x[k];
      if x[k] == '{' {
        assert (x + y)[k + 1] == x[k + 1];
        Mismatch(x + y, k, p, 1);
      } else {
        Mismatch(x + y, k, p, 0);
      }
    }
  }

  /** A placeholder-shaped text holds no other placeholder whose second
      character differs. */
  lemma NoStartInOther(q: string, y: string, p: string)
    requires PlaceholderShaped(q) && PlaceholderShaped(p) && q[1] != p[1]
    ensures NoStartIn(q, y, p)
  {
    forall k: nat | k < |q| ensures !At(q + y, k, p) {
      if k == 0 {
        assert (q + y)[1] == q[1];
        Mismatch(q + y, 0, p, 1);
      } else {
        assert (q + y)[k] == q[k] == q[1..][k - 1];
        Mismatch(q + y, k, p, 0);
      }
    }
  }

  /** A placeholder does not occur again inside itself. */
  lemma NoStartInSelf(p: string, y: string)
    requires PlaceholderShaped(p)
    ensures forall k: nat :: 0 < k < |p| ==> !At(p + y, k, p)
  {
    forall k: nat | 0 < k < |p| ensures !At(p + y, k, p) {
      assert (p + y)[k] == p[k] == p[1..][k - 1];
      Mismatch(p + y, k, p, 0);
    }
  }

  /** An inserted value holds no placeholder of its own and the text that
      follows begins with a character the placeholder does not contain. */
  lemma NoStartInValue(v: string, y: string, p: string)
    requires Absent(v, p) && y != [] && y[0] !in p
    ensures NoStartIn(v, y, p)
  {
    forall k: nat | k < |v| ensures !At(v + y, k, p) {
      if k + |p| <= |v| {
        assert (v + y)[k..k + |p|] == v[k..k + |p|];
        assert !At(v, k, p);
      } else {
        var i := |v| - k;
        assert (v + y)[k + i] == y[0];
        assert p[i] in p;
        Mismatch(v + y, k, p, i);
      }
    }
  }

  lemma FirstAtConcat(x: string, y: string, p: string, k: nat)
    requires NoStartIn(x, y, p) && FirstAt(y, p, k)
    ensures FirstAt(x + y, p, |x| + k)
  {
    AtShift(x, y, p, k);
    forall j: nat | j < |x| + k ensures !At(x + y, j, p) {
      if j >= |x| {
        AtShift(x, y, p, j - |x|);
      }
    }
  }

  lemma OnlyAtConcat(x: string, y: string, p: string, k: nat)
    requires NoStartIn(x, y, p) && OnlyAt(y, p, k)
    ensures OnlyAt(x + y, p, |x| + k)
  {
    AtShift(x, y, p, k);
    forall j: nat | At(x + y, j, p) ensures j == |x| + k {
      AtShift(x, y, p, j - |x|);
    }
  }

  lemma AbsentConcat(x: string, y: string, p: string)
    requires NoStartIn(x, y, p) && Absent(y, p)
    ensures Absent(x + y, p)
  {
    forall j: nat ensures !At(x + y, j, p) {
      if j >= |x| {
        AtShift(x, y, p, j - |x|);
      }
    }
  }

  lemma AbsentOpensLine(x: string, p: string)
    requires OpensLine(x) && PlaceholderShaped(p)
    ensures Absent(x, p)
  {
    NoStartInOpensLine(x, [], p);
    assert x + [] == x;
  }

  lemma OnlyAtHere(p: string, y: string)
    requires PlaceholderShaped(p) && Absent(y, p)
    ensures OnlyAt(p + y, p, 0)
  {
    assert (p + y)[0..|p|] == p;
    NoStartInSelf(p, y);
    forall j: nat | At(p + y, j, p) ensures j == 0 {
      if j >= |p| {
        AtShift(p, y, p, j - |p|);
      }
    }
  }

  /** Replacing the first occurrence, known to follow `a`, splices the
      replacement in between `a` and `b`. */
  lemma ReplaceMiddle(a: string, pat: string, b: string, rep: string)
    requires FirstAt(a + pat + b, pat, |a|) && NoDollarPattern(rep)
    ensures Replace(a + pat + b, pat, rep) == a + rep + b
  {
    var t := a + pat + b;
    assert t[..|a|] == a;
    assert t[|a| + |pat|..] == b;
    ReplaceAt(t, pat, rep, |a|);
  }

  lemma FirstAtHere(p: string, y: string)
    ensures FirstAt(p + y, p, 0)
  {
    assert (p + y)[0..|p|] == p;
  }

  lemma PlaceholdersShaped()
    ensures PlaceholderShaped(PROVIDER_PLACEHOLDER)
    ensures PlaceholderShaped(FINDINGS_PLACEHOLDER)
    ensures PlaceholderShaped(SAVINGS_PLACEHOLDER)
    ensures PROVIDER_PLACEHOLDER[1] == 'p' && FINDINGS_PLACEHOLDER[1] == 'f' && SAVINGS_PLACEHOLDER[1] == 't'
    ensures '\n' !in PROVIDER_PLACEHOLDER && '\n' !in FINDINGS_PLACEHOLDER && '\n' !in SAVINGS_PLACEHOLDER
    ensures ISSUES_LABEL[0] == '\n' && SAVINGS_LABEL[0] == '\n'
  {
    assert PROVIDER_PLACEHOLDER[1..] == "provider}";
    assert FINDINGS_PLACEHOLDER[1..] == "findings}";
    assert SAVINGS_PLACEHOLDER[1..] == "totalSavings}";
  }

  // The templates' placeholders.

  /** The bill analysis prompt contains none of the three placeholders. */
  lemma BillAnalysisHasNoPlaceholder()
    ensures Absent(BILL_ANALYSIS_PROMPT, PROVIDER_PLACEHOLDER)
    ensures Absent(BILL_ANALYSIS_PROMPT, FINDINGS_PLACEHOLDER)
    ensures Absent(BILL_ANALYSIS_PROMPT, SAVINGS_PLACEHOLDER)
  {
    TemplatePartsOpenLines();
    PlaceholdersShaped();
    AbsentOpensLine(BILL_ANALYSIS_PROMPT, PROVIDER_PLACEHOLDER);
    AbsentOpensLine(BILL_ANALYSIS_PROMPT, FINDINGS_PLACEHOLDER);
    AbsentOpensLine(BILL_ANALYSIS_PROMPT, SAVINGS_PLACEHOLDER);
  }

  /** In the script template, text after the savings label has no
      `{provider}` or `{findings}`, whether it is the intended placeholder
      or the text as written. */
  lemma SlotsHoldNoOtherPlaceholder(slot: string)
    requires slot == SAVINGS_PLACEHOLDER || slot == SAVINGS_AS_WRITTEN
    ensures Absent(slot + SCRIPT_TAIL, PROVIDER_PLACEHOLDER)
    ensures Absent(slot + SCRIPT_TAIL, FINDINGS_PLACEHOLDER)
  {
    TemplatePartsOpenLines();
    PlaceholdersShaped();
    var tail := SCRIPT_TAIL;
    AbsentOpensLine(tail, PROVIDER_PLACEHOLDER);
    AbsentOpensLine(tail, FINDINGS_PLACEHOLDER);
    if slot == SAVINGS_PLACEHOLDER {
      NoStartInOther(slot, tail, PROVIDER_PLACEHOLDER);
      NoStartInOther(slot, tail, FINDINGS_PLACEHOLDER);
      AbsentConcat(slot, tail, PROVIDER_PLACEHOLDER);
      AbsentConcat(slot, tail, FINDINGS_PLACEHOLDER);
    } else {
      var head, rest := "{totalSavings", "{'}'}" + tail;
      assert slot + tail == head + rest;
      assert PlaceholderShaped("{'}'}") by { assert "{'}'}"[1..] == "'}'}"; }
      NoStartInOther("{'}'}", tail, PROVIDER_PLACEHOLDER);
      NoStartInOther("{'}'}", tail, FINDINGS_PLACEHOLDER);
      AbsentConcat("{'}'}", tail, PROVIDER_PLACEHOLDER);
      AbsentConcat("{'}'}", tail, FINDINGS_PLACEHOLDER);
      assert PlaceholderShaped(head) by { assert head[1..] == "totalSavings"; }
      NoStartInOther(head, rest, PROVIDER_PLACEHOLDER);
      NoStartInOther(head, rest, FINDINGS_PLACEHOLDER);
      AbsentConcat(head, rest, PROVIDER_PLACEHOLDER);
      AbsentConcat(head, rest, FINDINGS_PLACEHOLDER);
    }
  }

  /** `{provider}` occurs once in the script template, right after the
      introduction. */
  lemma ProviderPosition(slot: string)
    requires Absent(slot + SCRIPT_TAIL, PROVIDER_PLACEHOLDER)
    ensures OnlyAt(ScriptTemplate(slot), PROVIDER_PLACEHOLDER, |SCRIPT_INTRO|)
  {
    TemplatePartsOpenLines();
    PlaceholdersShaped();
    var p := PROVIDER_PLACEHOLDER;
    var r := slot + SCRIPT_TAIL;
    var y2 := SAVINGS_LABEL + r;
    var y3 := FINDINGS_PLACEHOLDER + y2;
    var y4 := ISSUES_LABEL + y3;
    var y5 := p + y4;
    assert ScriptTemplate(slot) == SCRIPT_INTRO + y5;
    NoStartInOpensLine(SAVINGS_LABEL, r, p);
    AbsentConcat(SAVINGS_LABEL, r, p);
    NoStartInOther(FINDINGS_PLACEHOLDER, y2, p);
    AbsentConcat(FINDINGS_PLACEHOLDER, y2, p);
    NoStartInOpensLine(ISSUES_LABEL, y3, p);
    AbsentConcat(ISSUES_LABEL, y3, p);
    OnlyAtHere(p, y4);
    NoStartInOpensLine(SCRIPT_INTRO, y5, p);
    OnlyAtConcat(SCRIPT_INTRO, y5, p, 0);
  }

  /** `{findings}` occurs once in the script template, right after the
      issues label. */
  lemma FindingsPosition(slot: string)
    requires Absent(slot + SCRIPT_TAIL, FINDINGS_PLACEHOLDER)
    ensures OnlyAt(ScriptTemplate(slot), FINDINGS_PLACEHOLDER,
      |SCRIPT_INTRO| + |PROVIDER_PLACEHOLDER| + |ISSUES_LABEL|)
  {
    TemplatePartsOpenLines();
    PlaceholdersShaped();
    var f := FINDINGS_PLACEHOLDER;
    var r := slot + SCRIPT_TAIL;
    var y2 := SAVINGS_LABEL + r;
    var y3 := f + y2;
    var y4 := ISSUES_LABEL + y3;
    var y5 := PROVIDER_PLACEHOLDER + y4;
    assert ScriptTemplate(slot) == SCRIPT_INTRO + y5;
    NoStartInOpensLine(SAVINGS_LABEL, r, f);
    AbsentConcat(SAVINGS_LABEL, r, f);
    OnlyAtHere(f, y2);
    NoStartInOpensLine(ISSUES_LABEL, y3, f);
    OnlyAtConcat(ISSUES_LABEL, y3, f, 0);
    NoStartInOther(PROVIDER_PLACEHOLDER, y4, f);
    OnlyAtConcat(PROVIDER_PLACEHOLDER, y4, f, |ISSUES_LABEL|);
    NoStartInOpensLine(SCRIPT_INTRO, y5, f);
    OnlyAtConcat(SCRIPT_INTRO, y5, f, |PROVIDER_PLACEHOLDER| + |ISSUES_LABEL|);
  }

  /** Where `{totalSavings}` would start in the script template. */
  function SavingsSlotStart(): nat {
    |SCRIPT_INTRO| + |PROVIDER_PLACEHOLDER| + |ISSUES_LABEL| + |FINDINGS_PLACEHOLDER| + |SAVINGS_LABEL|
  }

  /** In the intended template `{totalSavings}` occurs once, right after the
      savings label. */
  lemma SavingsPosition()
    ensures OnlyAt(NEGOTIATION_SCRIPT_PROMPT, SAVINGS_PLACEHOLDER, SavingsSlotStart())
  {
    TemplatePartsOpenLines();
    PlaceholdersShaped();
    var s := SAVINGS_PLACEHOLDER;
    AbsentOpensLine(SCRIPT_TAIL, s);
    var r := s + SCRIPT_TAIL;
    var y2 := SAVINGS_LABEL + r;
    var y3 := FINDINGS_PLACEHOLDER + y2;
    var y4 := ISSUES_LABEL + y3;
    var y5 := PROVIDER_PLACEHOLDER + y4;
    assert NEGOTIATION_SCRIPT_PROMPT == SCRIPT_INTRO + y5;
    OnlyAtHere(s, SCRIPT_TAIL);
    NoStartInOpensLine(SAVINGS_LABEL, r, s);
    OnlyAtConcat(SAVINGS_LABEL, r, s, 0);
    NoStartInOther(FINDINGS_PLACEHOLDER, y2, s);
    OnlyAtConcat(FINDINGS_PLACEHOLDER, y2, s, |SAVINGS_LABEL|);
    NoStartInOpensLine(ISSUES_LABEL, y3, s);
    OnlyAtConcat(ISSUES_LABEL, y3, s, |FINDINGS_PLACEHOLDER| + |SAVINGS_LABEL|);
    NoStartInOther(PROVIDER_PLACEHOLDER, y4, s);
    OnlyAtConcat(PROVIDER_PLACEHOLDER, y4, s, |ISSUES_LABEL| + |FINDINGS_PLACEHOLDER| + |SAVINGS_LABEL|);
    NoStartInOpensLine(SCRIPT_INTRO, y5, s);
    OnlyAtConcat(SCRIPT_INTRO, y5, s,
      |PROVIDER_PLACEHOLDER| + |ISSUES_LABEL| + |FINDINGS_PLACEHOLDER| + |SAVINGS_LABEL|);
  }

  /** The intended negotiation template holds each placeholder exactly once,
      in the order provider, findings, savings. */
  lemma PlaceholdersOnceInOrder()
    ensures exists i: nat, j: nat, k: nat ::
      && i < j < k
      && OnlyAt(NEGOTIATION_SCRIPT_PROMPT, PROVIDER_PLACEHOLDER, i)
      && OnlyAt(NEGOTIATION_SCRIPT_PROMPT, FINDINGS_PLACEHOLDER, j)
      && OnlyAt(NEGOTIATION_SCRIPT_PROMPT, SAVINGS_PLACEHOLDER, k)
  {
    SlotsHoldNoOtherPlaceholder(SAVINGS_PLACEHOLDER);
    ProviderPosition(SAVINGS_PLACEHOLDER);
    FindingsPosition(SAVINGS_PLACEHOLDER);
    SavingsPosition();
    var i, j := |SCRIPT_INTRO|, |SCRIPT_INTRO| + |PROVIDER_PLACEHOLDER| + |ISSUES_LABEL|;
    assert i < j < SavingsSlotStart();
  }

  /** The template as written holds `{provider}` and `{findings}` once each,
      in that order, but no `{totalSavings}` at all. */
  lemma SavingsPlaceholderMissing()
    ensures exists i: nat, j: nat ::
      && i < j
      && OnlyAt(NEGOTIATION_SCRIPT_PROMPT_AS_WRITTEN, PROVIDER_PLACEHOLDER, i)
      && OnlyAt(NEGOTIATION_SCRIPT_PROMPT_AS_WRITTEN, FINDINGS_PLACEHOLDER, j)
    ensures Absent(NEGOTIATION_SCRIPT_PROMPT_AS_WRITTEN, SAVINGS_PLACEHOLDER)
  {
    SlotsHoldNoOtherPlaceholder(SAVINGS_AS_WRITTEN);
    ProviderPosition(SAVINGS_AS_WRITTEN);
    FindingsPosition(SAVINGS_AS_WRITTEN);
    AbsentAsWritten();
  }

  /** `{totalSavings{'}'}` and what follows it hold no `{totalSavings}`. */
  lemma SavingsSlotAsWrittenAbsent()
    ensures Absent(SAVINGS_AS_WRITTEN + SCRIPT_TAIL, SAVINGS_PLACEHOLDER)
  {
    TemplatePartsOpenLines();
    PlaceholdersShaped();
    var s := SAVINGS_PLACEHOLDER;
    AbsentOpensLine(SCRIPT_TAIL, s);
    var quoted := "{'}'}";
    assert PlaceholderShaped(quoted) by { assert quoted[1..] == "'}'}"; }
    NoStartInOther(quoted, SCRIPT_TAIL, s);
    AbsentConcat(quoted, SCRIPT_TAIL, s);
    var head, rest := "{totalSavings", quoted + SCRIPT_TAIL;
    forall k: nat | k < |head| ensures !At(head + rest, k, s) {
      if k == 0 {
        assert (head + rest)[13] == '{';
        Mismatch(head + rest, 0, s, 13);
      } else {
        assert (head + rest)[k] == head[k] == head[1..][k - 1];
        assert head[1..] == "totalSavings";
        Mismatch(head + rest, k, s, 0);
      }
    }
    AbsentConcat(head, rest, s);
    assert SAVINGS_AS_WRITTEN + SCRIPT_TAIL == head + rest;
  }

  lemma AbsentAsWritten()
    ensures Absent(NEGOTIATION_SCRIPT_PROMPT_AS_WRITTEN, SAVINGS_PLACEHOLDER)
  {
    TemplatePartsOpenLines();
    PlaceholdersShaped();
    var s := SAVINGS_PLACEHOLDER;
    SavingsSlotAsWrittenAbsent();
    var r := SAVINGS_AS_WRITTEN + SCRIPT_TAIL;
    var y2 := SAVINGS_LABEL + r;
    var y3 := FINDINGS_PLACEHOLDER + y2;
    var y4 := ISSUES_LABEL + y3;
    var y5 := PROVIDER_PLACEHOLDER + y4;
    assert NEGOTIATION_SCRIPT_PROMPT_AS_WRITTEN == SCRIPT_INTRO + y5;
    NoStartInOpensLine(SAVINGS_LABEL, r, s);
    AbsentConcat(SAVINGS_LABEL, r, s);
    NoStartInOther(FINDINGS_PLACEHOLDER, y2, s);
    AbsentConcat(FINDINGS_PLACEHOLDER, y2, s);
    NoStartInOpensLine(ISSUES_LABEL, y3, s);
    AbsentConcat(ISSUES_LABEL, y3, s);
    NoStartInOther(PROVIDER_PLACEHOLDER, y4, s);
    AbsentConcat(PROVIDER_PLACEHOLDER, y4, s);
    NoStartInOpensLine(SCRIPT_INTRO, y5, s);
    AbsentConcat(SCRIPT_INTRO, y5, s);
  }

  /** The first `replace` puts the provider name in place of `{provider}`,
      which opens the text right after the introduction. */
  lemma FillProvider(intro: string, rest: string, provider: string)
    requires OpensLine(intro) && NoDollarPattern(provider)
    ensures Replace(intro + PROVIDER_PLACEHOLDER + rest, PROVIDER_PLACEHOLDER, provider)
      == intro + provider + rest
  {
    PlaceholdersShaped();
    var p := PROVIDER_PLACEHOLDER;
    FirstAtHere(p, rest);
    NoStartInOpensLine(intro, p + rest, p);
    FirstAtConcat(intro, p + rest, p, 0);
    assert intro + (p + rest) == intro + p + rest;
    ReplaceMiddle(intro, p, rest, provider);
  }

  /** The second `replace` puts the findings in place of `{findings}`, the
      first placeholder after the provider name and the issues label. */
  lemma FillFindings(intro: string, provider: string, l1: string, rest: string, findingsJson: string)
    requires OpensLine(intro) && OpensLine(l1) && l1 != [] && l1[0] == '\n'
    requires Absent(provider, FINDINGS_PLACEHOLDER) && NoDollarPattern(findingsJson)
    ensures Replace(intro + provider + l1 + FINDINGS_PLACEHOLDER + rest, FINDINGS_PLACEHOLDER, findingsJson)
      == intro + provider + l1 + findingsJson + rest
  {
    PlaceholdersShaped();
    var f := FINDINGS_PLACEHOLDER;
    var y3 := f + rest;
    var y4 := l1 + y3;
    var y5 := provider + y4;
    FirstAtHere(f, rest);
    NoStartInOpensLine(l1, y3, f);
    FirstAtConcat(l1, y3, f, 0);
    assert y4[0] == '\n';
    NoStartInValue(provider, y4, f);
    FirstAtConcat(provider, y4, f, |l1|);
    NoStartInOpensLine(intro, y5, f);
    FirstAtConcat(intro, y5, f, |provider| + |l1|);
    var a := intro + provider + l1;
    assert intro + y5 == a + f + rest;
    ReplaceMiddle(a, f, rest, findingsJson);
  }

  /** The first two `replace` calls on a template of the script template's
      shape put the provider name and the findings in place of their
      placeholders, as long as the provider name holds no `{findings}` and
      neither value holds a `$` pattern. */
  lemma FillFirstTwo(intro: string, l1: string, l2: string, slot: string, tail: string,
                     provider: string, findingsJson: string)
    requires OpensLine(intro) && OpensLine(l1) && l1 != [] && l1[0] == '\n'
    requires NoDollarPattern(provider) && NoDollarPattern(findingsJson)
    requires Absent(provider, FINDINGS_PLACEHOLDER)
    ensures Replace(Replace(intro + PROVIDER_PLACEHOLDER + l1 + FINDINGS_PLACEHOLDER + l2 + slot + tail,
      PROVIDER_PLACEHOLDER, provider), FINDINGS_PLACEHOLDER, findingsJson)
      == intro + provider + l1 + findingsJson + l2 + slot + tail
  {
    var p, f := PROVIDER_PLACEHOLDER, FINDINGS_PLACEHOLDER;
    var r := l2 + slot + tail;
    assert intro + p + l1 + f + l2 + slot + tail == intro + p + (l1 + f + r);
    FillProvider(intro, l1 + f + r, provider);
    assert intro + provider + (l1 + f + r) == intro + provider + l1 + f + r;
    FillFindings(intro, provider, l1, r, findingsJson);
    assert intro + provider + l1 + findingsJson + r == intro + provider + l1 + findingsJson + l2 + slot + tail;
  }

  /** The third `replace` on the result puts the savings text in place of
      `{totalSavings}` when neither earlier value holds that placeholder. */
  lemma FillSavings(intro: string, provider: string, l1: string, findingsJson: string, l2: string,
                    tail: string, savingsText: string)
    requires OpensLine(intro) && OpensLine(l1) && OpensLine(l2)
    requires l1 != [] && l1[0] == '\n' && l2 != [] && l2[0] == '\n'
    requires Absent(provider, SAVINGS_PLACEHOLDER) && Absent(findingsJson, SAVINGS_PLACEHOLDER)
    requires NoDollarPattern(savingsText)
    ensures Replace(intro + provider + l1 + findingsJson + l2 + SAVINGS_PLACEHOLDER + tail,
      SAVINGS_PLACEHOLDER, savingsText)
      == intro + provider + l1 + findingsJson + l2 + savingsText + tail
  {
    PlaceholdersShaped();
    var sp := SAVINGS_PLACEHOLDER;
    var y1 := sp + tail;
    var y2 := l2 + y1;
    var y3 := findingsJson + y2;
    var y4 := l1 + y3;
    var y5 := provider + y4;
    FirstAtHere(sp, tail);
    NoStartInOpensLine(l2, y1, sp);
    FirstAtConcat(l2, y1, sp, 0);
    assert y2[0] == '\n';
    NoStartInValue(findingsJson, y2, sp);
    FirstAtConcat(findingsJson, y2, sp, |l2|);
    NoStartInOpensLine(l1, y3, sp);
    FirstAtConcat(l1, y3, sp, |findingsJson| + |l2|);
    assert y4[0] == '\n';
    NoStartInValue(provider, y4, sp);
    FirstAtConcat(provider, y4, sp, |l1| + |findingsJson| + |l2|);
    NoStartInOpensLine(intro, y5, sp);
    FirstAtConcat(intro, y5, sp, |provider| + |l1| + |findingsJson| + |l2|);
    var before := intro + provider + l1 + findingsJson + l2;
    assert intro + y5 == before + sp + tail;
    ReplaceMiddle(before, sp, tail, savingsText);
  }

  /** When the text after the savings label holds no `{totalSavings}`, the
      third `replace` changes nothing. */
  lemma SavingsUnfilled(intro: string, provider: string, l1: string, findingsJson: string, l2: string,
                        rest: string, savingsText: string)
    requires OpensLine(intro) && OpensLine(l1) && OpensLine(l2)
    requires l1 != [] && l1[0] == '\n' && l2 != [] && l2[0] == '\n'
    requires Absent(provider, SAVINGS_PLACEHOLDER) && Absent(findingsJson, SAVINGS_PLACEHOLDER)
    requires Absent(rest, SAVINGS_PLACEHOLDER)
    ensures Replace(intro + provider + l1 + findingsJson + l2 + rest, SAVINGS_PLACEHOLDER, savingsText)
      == intro + provider + l1 + findingsJson + l2 + rest
  {
    PlaceholdersShaped();
    var sp := SAVINGS_PLACEHOLDER;
    var y2 := l2 + rest;
    var y3 := findingsJson + y2;
    var y4 := l1 + y3;
    var y5 := provider + y4;
    NoStartInOpensLine(l2, rest, sp);
    AbsentConcat(l2, rest, sp);
    assert y2[0] == '\n';
    NoStartInValue(findingsJson, y2, sp);
    AbsentConcat(findingsJson, y2, sp);
    NoStartInOpensLine(l1, y3, sp);
    AbsentConcat(l1, y3, sp);
    assert y4[0] == '\n';
    NoStartInValue(provider, y4, sp);
    AbsentConcat(provider, y4, sp);
    NoStartInOpensLine(intro, y5, sp);
    AbsentConcat(intro, y5, sp);
    assert intro + y5 == intro + provider + l1 + findingsJson + l2 + rest;
    ReplaceAbsent(intro + y5, sp, savingsText);
  }

  /** The intended chain splices the three values into the template: the
      prompt is the introduction, the provider name, the issues label, the
      findings, the savings label, the savings text and the rest of the
      template. This holds when no value holds a `$` pattern, the provider
      name holds neither later placeholder and the findings do not hold
      `{totalSavings}`. */
  lemma ScriptPromptSplices(provider: string, findingsJson: string, savingsText: string)
    requires NoDollarPattern(provider) && NoDollarPattern(findingsJson) && NoDollarPattern(savingsText)
    requires Absent(provider, FINDINGS_PLACEHOLDER) && Absent(provider, SAVINGS_PLACEHOLDER)
    requires Absent(findingsJson, SAVINGS_PLACEHOLDER)
    ensures ScriptPrompt(provider, findingsJson, savingsText)
      == SCRIPT_INTRO + provider + ISSUES_LABEL + findingsJson + SAVINGS_LABEL + savingsText + SCRIPT_TAIL
  {
    TemplatePartsOpenLines();
    PlaceholdersShaped();
    FillFirstTwo(SCRIPT_INTRO, ISSUES_LABEL, SAVINGS_LABEL, SAVINGS_PLACEHOLDER, SCRIPT_TAIL,
      provider, findingsJson);
    FillSavings(SCRIPT_INTRO, provider, ISSUES_LABEL, findingsJson, SAVINGS_LABEL, SCRIPT_TAIL,
      savingsText);
  }

  /** As written, the third `replace` finds nothing: the prompt keeps the
      literal `{totalSavings{'}'}` and the savings text is never inserted. */
  lemma AsWrittenKeepsSavingsText(provider: string, findingsJson: string, savingsText: string)
    requires NoDollarPattern(provider) && NoDollarPattern(findingsJson)
    requires Absent(provider, FINDINGS_PLACEHOLDER) && Absent(provider, SAVINGS_PLACEHOLDER)
    requires Absent(findingsJson, SAVINGS_PLACEHOLDER)
    ensures ScriptPromptAsWritten(provider, findingsJson, savingsText)
      == SCRIPT_INTRO + provider + ISSUES_LABEL + findingsJson + SAVINGS_LABEL + SAVINGS_AS_WRITTEN + SCRIPT_TAIL
  {
    TemplatePartsOpenLines();
    PlaceholdersShaped();
    FillFirstTwo(SCRIPT_INTRO, ISSUES_LABEL, SAVINGS_LABEL, SAVINGS_AS_WRITTEN, SCRIPT_TAIL,
      provider, findingsJson);
    SavingsSlotAsWrittenAbsent();
    SavingsUnfilled(SCRIPT_INTRO, provider, ISSUES_LABEL, findingsJson, SAVINGS_LABEL,
      SAVINGS_AS_WRITTEN + SCRIPT_TAIL, savingsText);
    assert SCRIPT_INTRO + provider + ISSUES_LABEL + findingsJson + SAVINGS_LABEL + (SAVINGS_AS_WRITTEN + SCRIPT_TAIL)
      == SCRIPT_INTRO + provider + ISSUES_LABEL + findingsJson + SAVINGS_LABEL + SAVINGS_AS_WRITTEN + SCRIPT_TAIL;
  }

  /** The savings text as rendered, a `$` and then digits, a point or a minus
      sign, holds no `$` pattern and is therefore inserted literally. */
  lemma SavingsTextIsLiteral(amount: string)
    requires forall i :: 0 <= i < |amount| ==> amount[i] in "0123456789.-"
    ensures NoDollarPattern("$" + amount)
  {
    var s := "$" + amount;
    forall i | 1 <= i < |s| ensures !(s[i] in "$&`'") {
      assert s[i] == amount[i - 1];
    }
  }
}
