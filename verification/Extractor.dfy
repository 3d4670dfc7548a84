/** Pattern-driven code extraction: the first pattern, in order, whose three guards all match. */
module Extractor {
  import opened Common
  import DigitRuns

  /** What `re.search` answers: the pattern does not compile, no match, or a match with its whole
      text and its groups (a group that took no part is None). */
  datatype Outcome = BadPattern | Miss | Hit(whole: string, groups: seq<Option<string>>)

  /** The regular-expression engine, under IGNORECASE and DOTALL: pattern, then text. */
  type Engine = (string, string) -> Outcome

  datatype Pattern = Pattern(
    id: nat, platform: string, name: string, priority: int,
    sender: Option<string>, subject: Option<string>, code: string, searchIn: string)

  datatype Candidate = Candidate(
    id: nat, platform: string, name: string, priority: int,
    senderMatch: bool, subjectMatch: bool, codeMatch: bool, extracted: Option<string>)

  datatype Extraction = Extraction(
    code: Option<string>, platform: Option<string>,
    patternId: Option<nat>, patternName: Option<string>,
    candidates: seq<Candidate>)

  predicate MatchesPattern(re: Engine, pattern: Option<string>, text: string) {
    match pattern
    case None => true
    case Some(p) => p == "" || re(p, text).Hit?
  }

  function LowerChar(c: char): char {
    if 'A' <= c <= 'Z' then (c as int + 32) as char else c
  }

  function Lower(s: string): (r: string)
    ensures |r| == |s|
    ensures forall i :: 0 <= i < |s| ==>
      if 'A' <= s[i] <= 'Z' then 'a' <= r[i] <= 'z' && r[i] - 'a' == s[i] - 'A' else r[i] == s[i]
  {
    seq(|s|, i requires 0 <= i < |s| => LowerChar(s[i]))
  }

  function Haystack(searchIn: string, subject: string, body: string): string {
    var s := Lower(searchIn);
    if s == "subject" then subject
    else if s == "body" then body
    else subject + "\n" + body
  }

  // ---- the specification ----------------------------------------------------------

  predicate SenderFits(re: Engine, p: Pattern, sender: string) {
    MatchesPattern(re, p.sender, sender)
  }

  predicate SubjectFits(re: Engine, p: Pattern, subject: string) {
    MatchesPattern(re, p.subject, subject)
  }

  predicate CodeFits(re: Engine, p: Pattern, subject: string, body: string) {
    re(p.code, Haystack(p.searchIn, subject, body)).Hit?
  }

  /** All three guards. */
  predicate Fits(re: Engine, p: Pattern, sender: string, subject: string, body: string) {
    SenderFits(re, p, sender) && SubjectFits(re, p, subject) && CodeFits(re, p, subject, body)
  }

  /** The code a pattern finds in a message. */
  function CodeOf(re: Engine, p: Pattern, subject: string, body: string): Option<string> {
    var o := re(p.code, Haystack(p.searchIn, subject, body));
    if o.Hit? then Capture(o) else None
  }

  /** A guard that is absent or empty always fits; any other fits exactly on a hit, so one that does not
      compile never does. */
  lemma GuardsAreOptional(re: Engine, p: Pattern, sender: string, subject: string, body: string)
    ensures p.sender in {None, Some("")} && p.subject in {None, Some("")} ==>
      (Fits(re, p, sender, subject, body) <==> re(p.code, Haystack(p.searchIn, subject, body)).Hit?)
    ensures p.sender.Some? && p.sender.value != "" && !re(p.sender.value, sender).Hit? ==>
      !Fits(re, p, sender, subject, body)
    ensures p.subject.Some? && p.subject.value != "" && !re(p.subject.value, subject).Hit? ==>
      !Fits(re, p, sender, subject, body)
    ensures p.sender.Some? && re(p.sender.value, sender).Hit? ==>
      p.subject.Some? && re(p.subject.value, subject).Hit? ==>
        (Fits(re, p, sender, subject, body) <==> re(p.code, Haystack(p.searchIn, subject, body)).Hit?)
  {
  }

  /** The captured group when the pattern has groups, else the whole match. */
  function Capture(o: Outcome): Option<string>
    requires o.Hit?
  {
    if |o.groups| > 0 then o.groups[0] else Some(o.whole)
  }

  /** What the attempt record of a tried pattern ends up saying. */
  ghost predicate Reports(re: Engine, p: Pattern, sender: string, subject: string, body: string, c: Candidate) {
    && c.id == p.id && c.platform == p.platform && c.name == p.name && c.priority == p.priority
    && c.senderMatch == SenderFits(re, p, sender)
    && c.subjectMatch == (c.senderMatch && SubjectFits(re, p, subject))
    && c.codeMatch == (c.subjectMatch && CodeFits(re, p, subject, body))
    && c.extracted == if c.codeMatch then Capture(re(p.code, Haystack(p.searchIn, subject, body))) else None
  }

  /** The index of the first fitting pattern, or the number of patterns. */
  function FirstFit(re: Engine, patterns: seq<Pattern>, sender: string, subject: string, body: string): (k: nat)
    ensures k <= |patterns|
    ensures k < |patterns| ==> Fits(re, patterns[k], sender, subject, body)
    ensures forall j :: 0 <= j < k ==> !Fits(re, patterns[j], sender, subject, body)
  {
    if patterns == [] || Fits(re, patterns[0], sender, subject, body) then 0
    else 1 + FirstFit(re, patterns[1..], sender, subject, body)
  }

  /** Platform and code of the first fitting pattern. */
  function Winner(re: Engine, patterns: seq<Pattern>, sender: string, subject: string, body: string)
    : (r: (Option<string>, Option<string>))
    ensures r.1.Some? ==> r.0.Some?
  {
    var k := FirstFit(re, patterns, sender, subject, body);
    if k == |patterns| then (None, None)
    else (Some(patterns[k].platform), Capture(re(patterns[k].code, Haystack(patterns[k].searchIn, subject, body))))
  }

  lemma FirstFitUnique(re: Engine, patterns: seq<Pattern>, sender: string, subject: string, body: string, k: nat)
    requires k <= |patterns|
    requires k < |patterns| ==> Fits(re, patterns[k], sender, subject, body)
    requires forall j :: 0 <= j < k ==> !Fits(re, patterns[j], sender, subject, body)
    ensures FirstFit(re, patterns, sender, subject, body) == k
  {
    var f := FirstFit(re, patterns, sender, subject, body);
    assert f < |patterns| ==> Fits(re, patterns[f], sender, subject, body);
  }

  // ---- the loop ---------------------------------------------------------------------

  /** Tries the patterns in order and stops at the first success; `candidates` is exactly the tried
      prefix, each record telling how far its pattern got. */
  method RunExtraction(re: Engine, sender: string, subject: string, body: string, patterns: seq<Pattern>)
    returns (result: Extraction)
    ensures var k := FirstFit(re, patterns, sender, subject, body);
      && |result.candidates| == Min(k + 1, |patterns|)
      && (forall j :: 0 <= j < |result.candidates| ==>
            Reports(re, patterns[j], sender, subject, body, result.candidates[j]))
      && (result.platform, result.code) == Winner(re, patterns, sender, subject, body)
      && result.patternId == (if k < |patterns| then Some(patterns[k].id) else None)
      && result.patternName == (if k < |patterns| then Some(patterns[k].name) else None)
  {
    var candidates: seq<Candidate> := [];
    for i := 0 to |patterns|
      invariant |candidates| == i
      invariant forall j :: 0 <= j < i ==> !Fits(re, patterns[j], sender, subject, body)
      invariant forall j :: 0 <= j < i ==> Reports(re, patterns[j], sender, subject, body, candidates[j])
    {
      var p := patterns[i];
      candidates := candidates + [Candidate(p.id, p.platform, p.name, p.priority, false, false, false, None)];

      if !MatchesPattern(re, p.sender, sender) {
        continue;
      }
      candidates := candidates[i := candidates[i].(senderMatch := true)];
      if !MatchesPattern(re, p.subject, subject) {
        continue;
      }
      candidates := candidates[i := candidates[i].(subjectMatch := true)];

      var m := re(p.code, Haystack(p.searchIn, subject, body));
      if m.BadPattern? {
        continue;
      }
      if m.Miss? {
        continue;
      }
      candidates := candidates[i := candidates[i].(codeMatch := true)];
      var code := if |m.groups| > 0 then m.groups[0] else Some(m.whole);
      candidates := candidates[i := candidates[i].(extracted := code)];
      FirstFitUnique(re, patterns, sender, subject, body, i);
      return Extraction(code, Some(p.platform), Some(p.id), Some(p.name), candidates);
    }
    FirstFitUnique(re, patterns, sender, subject, body, |patterns|);
    result := Extraction(None, None, None, None, candidates);
  }

  /** Reading the records back: flags come in a chain, and only the last tried pattern can have
      matched, which it did exactly when a platform was reported. */
  lemma CandidatesTellTheStory(
    re: Engine, sender: string, subject: string, body: string, patterns: seq<Pattern>, candidates: seq<Candidate>)
    requires |candidates| == Min(FirstFit(re, patterns, sender, subject, body) + 1, |patterns|)
    requires forall j :: 0 <= j < |candidates| ==>
      Reports(re, patterns[j], sender, subject, body, candidates[j])
    ensures forall j :: 0 <= j < |candidates| ==>
      && (candidates[j].codeMatch ==> candidates[j].subjectMatch)
      && (candidates[j].subjectMatch ==> candidates[j].senderMatch)
      && (candidates[j].codeMatch ==> j == |candidates| - 1)
    ensures (exists j :: 0 <= j < |candidates| && candidates[j].codeMatch)
      <==> Winner(re, patterns, sender, subject, body).0.Some?
  {
    var k := FirstFit(re, patterns, sender, subject, body);
    if k < |patterns| {
      assert candidates[k].codeMatch;
    }
  }

  // ---- the seeded digit-run rules -----------------------------------------------------

  /** The engine runs `p.code` as the digit-run shape with bounds `m` and `n`. */
  ghost predicate DigitRunRule(re: Engine, d: DigitRuns.Digit, p: Pattern, m: nat, n: nat)
    requires 1 <= m <= n
  {
    forall text :: re(p.code, text) == match DigitRuns.Captured(d, text, m, n)
                                       case None => Miss
                                       case Some(run) => Hit(run, [Some(run)])
  }

  /** A digit-run rule on 'both' takes the subject's first suitable run, and the body's only when the
      subject has none; it fails only when neither has one. */
  lemma DigitRunRuleOnBoth(
    re: Engine, d: DigitRuns.Digit, p: Pattern, m: nat, n: nat, sender: string, subject: string, body: string)
    requires 1 <= m <= n && !d('\n')
    requires DigitRunRule(re, d, p, m, n)
    requires SenderFits(re, p, sender) && SubjectFits(re, p, subject)
    requires Lower(p.searchIn) != "subject" && Lower(p.searchIn) != "body"
    ensures var inSubject, inBody := DigitRuns.Captured(d, subject, m, n), DigitRuns.Captured(d, body, m, n);
      Winner(re, [p], sender, subject, body)
      == (if inSubject.Some? then (Some(p.platform), inSubject)
          else if inBody.Some? then (Some(p.platform), inBody)
          else (None, None))
  {
    DigitRuns.BothIsSubjectThenBody(d, subject, body, m, n);
    assert re(p.code, Haystack(p.searchIn, subject, body)).Hit?
        <==> DigitRuns.Captured(d, subject + "\n" + body, m, n).Some?;
    FirstFitUnique(re, [p], sender, subject, body, if Fits(re, p, sender, subject, body) then 0 else 1);
  }

  /** A digit-run rule on 'subject', in any case, yields exactly the subject's run, whatever the body. */
  lemma DigitRunRuleOnSubject(
    re: Engine, d: DigitRuns.Digit, p: Pattern, m: nat, n: nat, sender: string, subject: string, body: string)
    requires 1 <= m <= n
    requires DigitRunRule(re, d, p, m, n)
    requires SenderFits(re, p, sender) && SubjectFits(re, p, subject)
    requires Lower(p.searchIn) == "subject"
    ensures var run := DigitRuns.Captured(d, subject, m, n);
      Winner(re, [p], sender, subject, body) == (if run.Some? then Some(p.platform) else None, run)
  {
    assert re(p.code, subject).Hit? <==> DigitRuns.Captured(d, subject, m, n).Some?;
    FirstFitUnique(re, [p], sender, subject, body, if Fits(re, p, sender, subject, body) then 0 else 1);
  }

  /** One on 'body' yields exactly the body's, whatever the subject. */
  lemma DigitRunRuleOnBody(
    re: Engine, d: DigitRuns.Digit, p: Pattern, m: nat, n: nat, sender: string, subject: string, body: string)
    requires 1 <= m <= n
    requires DigitRunRule(re, d, p, m, n)
    requires SenderFits(re, p, sender) && SubjectFits(re, p, subject)
    requires Lower(p.searchIn) == "body"
    ensures var run := DigitRuns.Captured(d, body, m, n);
      Winner(re, [p], sender, subject, body) == (if run.Some? then Some(p.platform) else None, run)
  {
    assert re(p.code, body).Hit? <==> DigitRuns.Captured(d, body, m, n).Some?;
    FirstFitUnique(re, [p], sender, subject, body, if Fits(re, p, sender, subject, body) then 0 else 1);
  }

  /** The spellings 'Subject' and 'BODY' are as good as the small ones. */
  lemma SpellingDoesNotMatter()
    ensures Lower("Subject") == Lower("SUBJECT") == "subject"
    ensures Lower("Body") == Lower("BODY") == "body"
  {
  }
}
