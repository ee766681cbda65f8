/**
 * app/components/features/ResumeChat.tsx: the chat window's log, the send
 * guard and its two halves (before and after the awaited reply), and the
 * context text built from the analysis. Timestamps are left out.
 */
module ResumeChat {
  import opened Wrappers
  import opened Text
  import opened Types

  datatype Role = User | Assistant

  datatype Message = Message(role: Role, content: string)

  const Greeting: string :=
      "Hello! I am " + "your AI " + "assistant. " + "You can ask " + "me anything " + "about your " + "CV, for " + "example:\n" +
      "\n" +
      "• \"Why is my " + "ATS score " + "low?\"\n" +
      "• \"How can I " + "improve my " + "Summary " + "section?\"\n" +
      "• \"What " + "skills should " + "I learn?\"\n" +
      "• \"Analyze my " + "work " + "experience " + "section\""

  const GreetingMessage := Message(Assistant, Greeting)

  const ErrorReply: string :=
      "❌ Sorry, an " + "error " + "occurred. " + "Please try " + "again."

  /** The four suggested questions. */
  const QuickQuestions := ["Why is my ATS score low?", "How to improve my Summary?", "What skills should I learn?",
    "Analyze my experience section"]

  /** `feedback.ATS.tips.filter(t => t.type === kind).map(t => `- ${t.tip}`)`. */
  function TipLines(tips: seq<Tip>, kind: string): (r: seq<string>)
    ensures |r| <= |tips|
    ensures forall i :: 0 <= i < |r| ==> exists j :: 0 <= j < |tips| && tips[j].kind == kind && r[i] == "- " + tips[j].tip
    ensures forall j :: 0 <= j < |tips| && tips[j].kind == kind ==> "- " + tips[j].tip in r
  {
    if tips == [] then []
    else
      var rest := TipLines(tips[1..], kind);
      assert forall j :: 1 <= j < |tips| ==> tips[j] == tips[1..][j - 1];
      if tips[0].kind == kind then ["- " + tips[0].tip] + rest else rest
  }

  /** The lines of a concatenation are those of each part: every tip of the kind is listed, in order, repeats included. */
  lemma {:induction false} TipLinesAppend(a: seq<Tip>, b: seq<Tip>, kind: string)
    ensures TipLines(a + b, kind) == TipLines(a, kind) + TipLines(b, kind)
    decreases |a|
  {
    if a != [] {
      var head := if a[0].kind == kind then ["- " + a[0].tip] else [];
      assert (a + b)[0] == a[0] && (a + b)[1..] == a[1..] + b;
      assert TipLines(a + b, kind) == head + TipLines(a[1..] + b, kind);
      assert TipLines(a, kind) == head + TipLines(a[1..], kind);
      TipLinesAppend(a[1..], b, kind);
    } else {
      assert a + b == b;
    }
  }

  /** One tip gives its line exactly when it is of the kind. */
  lemma TipLinesSingleton(t: Tip, kind: string)
    ensures TipLines([t], kind) == if t.kind == kind then ["- " + t.tip] else []
  {
    assert [t][1..] == [];
  }

  /** `${t.explanation}`: an absent explanation prints as `undefined`. */
  function ExplanationText(explanation: Option<string>): string {
    match explanation
    case Some(e) => e
    case None => "undefined"
  }

  /** `tips.map(t => `- [${t.type}] ${t.tip}: ${t.explanation}`)`. */
  function DetailLines(tips: seq<Tip>): (r: seq<string>)
    ensures |r| == |tips|
    ensures forall i :: 0 <= i < |tips| ==>
      r[i] == "- [" + tips[i].kind + "] " + tips[i].tip + ": " + ExplanationText(tips[i].explanation)
  {
    seq(|tips|, i requires 0 <= i < |tips| => "- [" + tips[i].kind + "] " + tips[i].tip + ": " + ExplanationText(tips[i].explanation))
  }

  const ContextOpening: string :=
      "Resume " + "Analysis " + "Context:\n" +
      "- Overall " + "Score: "
  const AtsLabel: string := "/100\n- ATS " + "Score: "
  const CompanyLabel: string := "/100\n" + "- Company: "
  const TitleLabel: string := "\n- Job " + "Title: "
  const StrengthsHeader: string := "\n\nKey " + "Strengths:\n"
  const ImprovementsHeader: string := "\n\nAreas for " + "Improvement:\n"
  const SkillsHeader: string := "\n\nSkills " + "Analysis:\n"
  const ContentHeader: string := "\n\nContent " + "Analysis:\n"

  /** The pieces of `buildContext`'s template, before trimming. */
  function ContextPieces(resume: Resume, f: Feedback, ats: Section): seq<string> {
    [ "\n" + ContextOpening, IntToString(f.overallScore),
      AtsLabel, IntToString(ats.score),
      CompanyLabel, OrElse(resume.companyName, "N/A"),
      TitleLabel, OrElse(resume.jobTitle, "N/A"),
      StrengthsHeader, Join(TipLines(ats.tips, "good"), "\n"),
      ImprovementsHeader, Join(TipLines(ats.tips, "improve"), "\n"),
      SkillsHeader, Join(DetailLines(f.skills.tips), "\n"),
      ContentHeader + Join(DetailLines(f.content.tips), "\n") + "\n    " ]
  }

  /**
   * `buildContext()`, trimmed. It reads `feedback.ATS.score`, which throws
   * when the analysis has no ATS section: then there is no context.
   */
  function BuildContext(resume: Resume, f: Feedback): (r: Option<string>)
    ensures r.Some? <==> f.ats.Some?
  {
    match f.ats
    case None => None
    case Some(ats) => Some(Trim(Concat(ContextPieces(resume, f, ats))))
  }

  /**
   * Trimming a template that opens with one newline before a visible
   * character and closes with a visible piece: only that newline and the
   * whitespace after the last piece's visible text go.
   */
  lemma TemplateTrimmed(p: seq<string>)
    requires |p| >= 2 && |p[0]| >= 2 && p[0][0] == '\n' && !IsSpace(p[0][1]) && !Blank(p[|p| - 1])
    ensures Trim(Concat(p)) == p[0][1..] + Concat(p[1..|p| - 1]) + TrimEnd(p[|p| - 1])
  {
    var n := |p| - 1;
    var first, mid, last := p[0], Concat(p[1..n]), p[n];
    assert Concat(p) == first + mid + last by {
      FirstMiddleLast(p);
    }
    assert !Blank(first) by {
      assert !IsSpace(first[1]);
    }
    assert TrimStart(first) == first[1..] by {
      assert first == "\n" + first[1..];
      TrimStartBlank("\n", first[1..]);
    }
    TrimAround(first, mid, last);
  }

  /** A template of two or more pieces is its first piece, the middle ones and its last piece. */
  lemma FirstMiddleLast(p: seq<string>)
    requires |p| >= 2
    ensures Concat(p) == p[0] + Concat(p[1..|p| - 1]) + p[|p| - 1]
  {
    var n := |p| - 1;
    ConcatAround(p, n);
    assert p[..n][1..] == p[1..n];
    assert Concat(p[..n]) == p[0] + Concat(p[1..n]);
    assert p[n + 1..] == [];
  }

  /** Adjacent pieces strictly inside such a template survive trimming together. */
  lemma TemplateHoldsRun(p: seq<string>, i: nat, j: nat)
    requires |p| >= 2 && |p[0]| >= 2 && p[0][0] == '\n' && !IsSpace(p[0][1]) && !Blank(p[|p| - 1])
    requires 1 <= i <= j <= |p| - 1
    ensures IsInfix(Concat(p[i..j]), Trim(Concat(p)))
  {
    var n := |p| - 1;
    var run, head, mid, tail := Concat(p[i..j]), p[0][1..], Concat(p[1..n]), TrimEnd(p[n]);
    assert IsInfix(run, mid) by {
      ConcatRunWithin(p, 1, n, i, j);
    }
    assert Trim(Concat(p)) == head + mid + tail by {
      TemplateTrimmed(p);
    }
    InfixOfMiddle(run, head, mid, tail, Trim(Concat(p)));
  }

  /** Whatever occurs in the middle part of a text occurs in the text. */
  lemma InfixOfMiddle(t: string, head: string, mid: string, tail: string, whole: string)
    requires whole == head + mid + tail && IsInfix(t, mid)
    ensures IsInfix(t, whole)
  {
    InfixRight(t, head, mid);
    InfixLeft(t, head + mid, tail);
  }

  /** `buildContext`'s template has that shape. */
  lemma ContextShape(resume: Resume, f: Feedback, ats: Section)
    ensures var p := ContextPieces(resume, f, ats);
      |p| == 15 && |p[0]| >= 2 && p[0][0] == '\n' && !IsSpace(p[0][1]) && !Blank(p[14])
      && p[0][1..] == ContextOpening
      && p[4] == CompanyLabel && p[5] == OrElse(resume.companyName, "N/A") && p[6] == TitleLabel
      && p[7] == OrElse(resume.jobTitle, "N/A") && p[8] == StrengthsHeader
      && p[9] == Join(TipLines(ats.tips, "good"), "\n") && p[10] == ImprovementsHeader
      && p[11] == Join(TipLines(ats.tips, "improve"), "\n") && p[12] == SkillsHeader
  {
    var p := ContextPieces(resume, f, ats);
    assert p[0][1] == 'R';
    assert p[14][2] == 'C';
  }

  /**
   * After trimming, the context is the opening and every piece up to the
   * skills list verbatim, then the content section without its trailing
   * indentation.
   */
  lemma ContextTrimmed(resume: Resume, f: Feedback)
    requires f.ats.Some?
    ensures var p := ContextPieces(resume, f, f.ats.value);
      BuildContext(resume, f).value == ContextOpening + Concat(p[1..14]) + TrimEnd(p[14])
  {
    ContextShape(resume, f, f.ats.value);
    TemplateTrimmed(ContextPieces(resume, f, f.ats.value));
  }

  /** Any run of adjacent pieces between the opening and the content section appears in the context. */
  lemma ContextHoldsRun(resume: Resume, f: Feedback, i: nat, j: nat)
    requires f.ats.Some? && 1 <= i <= j <= 14
    ensures IsInfix(Concat(ContextPieces(resume, f, f.ats.value)[i..j]), BuildContext(resume, f).value)
  {
    ContextShape(resume, f, f.ats.value);
    TemplateHoldsRun(ContextPieces(resume, f, f.ats.value), i, j);
  }

  /** Three adjacent pieces of the template appear together in the context. */
  lemma ContextHoldsThree(resume: Resume, f: Feedback, i: nat, a: string, b: string, c: string)
    requires f.ats.Some? && 1 <= i && i + 3 <= 14
    requires var p := ContextPieces(resume, f, f.ats.value); p[i] == a && p[i + 1] == b && p[i + 2] == c
    ensures IsInfix(Concat([a, b, c]), BuildContext(resume, f).value)
  {
    SliceOfThree(ContextPieces(resume, f, f.ats.value), i);
    ContextHoldsRun(resume, f, i, i + 3);
  }

  /** The `good` ATS tips are listed under the strengths heading, the `improve` ones under improvements. */
  lemma ContextListsAtsTips(resume: Resume, f: Feedback)
    requires f.ats.Some?
    ensures IsInfix(Concat([StrengthsHeader, Join(TipLines(f.ats.value.tips, "good"), "\n"), ImprovementsHeader]),
      BuildContext(resume, f).value)
    ensures IsInfix(Concat([ImprovementsHeader, Join(TipLines(f.ats.value.tips, "improve"), "\n"), SkillsHeader]),
      BuildContext(resume, f).value)
  {
    var tips := f.ats.value.tips;
    ContextShape(resume, f, f.ats.value);
    ContextHoldsThree(resume, f, 8, StrengthsHeader, Join(TipLines(tips, "good"), "\n"), ImprovementsHeader);
    ContextHoldsThree(resume, f, 10, ImprovementsHeader, Join(TipLines(tips, "improve"), "\n"), SkillsHeader);
  }

  /** The company and title lines, with `N/A` for a falsy value. */
  lemma ContextNamesPosition(resume: Resume, f: Feedback)
    requires f.ats.Some?
    ensures IsInfix(Concat([CompanyLabel, OrElse(resume.companyName, "N/A"), TitleLabel]), BuildContext(resume, f).value)
    ensures IsInfix(Concat([TitleLabel, OrElse(resume.jobTitle, "N/A"), StrengthsHeader]), BuildContext(resume, f).value)
  {
    ContextShape(resume, f, f.ats.value);
    ContextHoldsThree(resume, f, 4, CompanyLabel, OrElse(resume.companyName, "N/A"), TitleLabel);
    ContextHoldsThree(resume, f, 6, TitleLabel, OrElse(resume.jobTitle, "N/A"), StrengthsHeader);
  }

  /** `await onSendMessage(inputMessage, context)` after `buildContext()`: `None` when either throws. */
  function Reply(question: string, context: Option<string>, onSendMessage: (string, string) -> Option<string>)
    : (r: Option<string>)
    ensures context.None? ==> r.None?
    ensures context.Some? ==> r == onSendMessage(question, context.value)
  {
    match context
    case None => None
    case Some(c) => onSendMessage(question, c)
  }

  /** The assistant's message for a reply: the reply, or the fixed error text. */
  function ReplyText(reply: Option<string>): (r: string)
    ensures reply.Some? ==> r == reply.value
    ensures reply.None? ==> r == ErrorReply
  {
    match reply
    case Some(text) => text
    case None => ErrorReply
  }

  /** `handleSend`'s guard passes: something other than whitespace to send, and nothing in flight. */
  predicate CanSend(inputMessage: string, isSending: bool) {
    !Blank(inputMessage) && !isSending
  }

  /** `!inputMessage.trim() || isSending`, which both disables the button and returns early. */
  predicate SendDisabled(inputMessage: string, isSending: bool) {
    Trim(inputMessage) == "" || isSending
  }

  /** The button is disabled exactly when a send would do nothing. */
  lemma DisabledExactlyWhenNoOp(inputMessage: string, isSending: bool)
    ensures SendDisabled(inputMessage, isSending) <==> !CanSend(inputMessage, isSending)
  {
  }

  /** The suggested questions are shown while the log holds only the greeting. */
  predicate ShowsQuickQuestions(messages: seq<Message>) {
    |messages| == 1
  }

  /** Enter without Shift sends. */
  predicate SendsOnKey(key: string, shiftKey: bool) {
    key == "Enter" && !shiftKey
  }

  class ChatWindow {
    var isOpen: bool
    var messages: seq<Message>
    var inputMessage: string
    var isSending: bool

    /** The log opens with the greeting and only grows. */
    ghost predicate Valid()
      reads this
    {
      messages != [] && messages[0] == GreetingMessage
    }

    constructor ()
      ensures !isOpen && messages == [GreetingMessage] && inputMessage == "" && !isSending
      ensures Valid() && ShowsQuickQuestions(messages)
    {
      isOpen := false;
      messages := [GreetingMessage];
      inputMessage := "";
      isSending := false;
    }

    /** The floating button and the close button. */
    method SetOpen(open: bool)
      modifies this
      ensures isOpen == open
      ensures messages == old(messages) && inputMessage == old(inputMessage) && isSending == old(isSending)
    {
      isOpen := open;
    }

    /** Typing, or clicking a suggested question. */
    method SetInput(text: string)
      modifies this
      ensures inputMessage == text
      ensures messages == old(messages) && isOpen == old(isOpen) && isSending == old(isSending)
    {
      inputMessage := text;
    }

    /**
     * `handleSend` up to the awaited call: nothing when the input is blank
     * or a send is in flight; otherwise the typed text joins the log, the
     * input is cleared and the send is in flight. Returns the question to
     * send, untrimmed.
     */
    method BeginSend() returns (question: Option<string>)
      requires Valid()
      modifies this
      ensures Valid()
      ensures !CanSend(old(inputMessage), old(isSending)) ==>
        question.None? && messages == old(messages) && inputMessage == old(inputMessage) && isSending == old(isSending)
      ensures CanSend(old(inputMessage), old(isSending)) ==>
        question == Some(old(inputMessage)) && messages == old(messages) + [Message(User, old(inputMessage))]
        && inputMessage == "" && isSending
      ensures isOpen == old(isOpen)
    {
      if !CanSend(inputMessage, isSending) {
        return None;
      }
      question := Some(inputMessage);
      messages := messages + [Message(User, inputMessage)];
      inputMessage := "";
      isSending := true;
    }

    /** `handleSend` after the awaited call: the reply or the error text joins the log; nothing is in flight. */
    method CompleteSend(reply: Option<string>)
      requires Valid()
      modifies this
      ensures Valid()
      ensures messages == old(messages) + [Message(Assistant, ReplyText(reply))]
      ensures !isSending && inputMessage == old(inputMessage) && isOpen == old(isOpen)
    {
      messages := messages + [Message(Assistant, ReplyText(reply))];
      isSending := false;
    }
  }
}
