/** The fixed catalog of SMS bodies and the spoken call script. */
module Message {
  import Format

  const GREETING: string :=
    "Hello from Twilio Resorts and Spas. Thank you for"
    + " reaching out to our review rewards program, where you can leave a"
    + " review over the phone and receive $50 Twilbucks off your next stay!"

  const PARTICIPATION_INVITE: string := "Would you like to leave a review today?" + " (yes/no)"

  const PARTICIPATION_ACCEPT_RESPONSE: string :=
    "Thank you for choosing to participate."
    + " Your Twilbucks will be available in your account after leaving your"
    + " review."

  const PARTICIPATION_DECLINE_RESPONSE: string :=
    "We're sorry to hear that. Please reach"
    + " out to us in the future if you wish to participate."

  const PARTICIPATION_INVITE_FALLBACK: string :=
    "Sorry, I did not understand that. Please" + " say \"yes\" or \"no\"."

  const ASK_FOR_NAME: string := "Please enter your name."

  const CALL_NOTIFICATION: string := "You will receive a call shortly to leave your review."

  const GOODBYE: string := "Thank you for reaching out to us. Goodbye."

  const PARTICIPATION_THANKYOU: string := "We have received your review. Thank you for" + " participating!"

  const GREETING_WITH_NAME_TEMPLATE: string := "Hello, %s!"

  /** The TwiML fragments, with the line breaks and tabs of their raw-string
      literals in the source. */
  const GREETING_SAY_TWIML_TEMPLATE: string :=
    "\n\t<Say>" + "Ahoy! Greetings from Twilio Resorts and Spas" + ".</Say>\n"

  const INSTRUCTIONS_SAY_TWIML: string :=
    "\n\t<Say>Thank you for participating in our review rewards program, where you\n"
    + "will receive 50 Twilbucks by leaving a review of your recent stay! You may leave\n"
    + "a review up to 1 minute long. Please leave your review after the beep.</Say>\n"

  const RECORD_VERB_TWIML: string :=
    "\n\t" + "<Record timeout=\"10\" maxLength=\"60\" playBeep=\"true\"></Record>" + "\t\n"

  /** The personalised greeting: the name substituted into the template. */
  function GetHelloMessage(name: string): string {
    Format.Sprintf(GREETING_WITH_NAME_TEMPLATE, [name])
  }

  /** The greeting is the literal "Hello, " + name + "!" for every name. */
  lemma HelloMessageShape(name: string)
    ensures GetHelloMessage(name) == "Hello, " + name + "!"
  {
    assert GREETING_WITH_NAME_TEMPLATE == "Hello, " + "%s" + "!";
    Format.SprintfOneString("Hello, ", "!", name);
  }

  /** The name can be read back from the greeting, so distinct names give
      distinct greetings. */
  lemma HelloMessageNameRecoverable(name: string)
    ensures var m := GetHelloMessage(name);
      |m| == |name| + 8 && m[7..|m| - 1] == name
  {
    HelloMessageShape(name);
    var m := GetHelloMessage(name);
    assert m == "Hello, " + name + "!";
    assert m[7..|m| - 1] == name;
  }

  /** The call script, as `GetReviewGreetingAndInstructionsTwiML` assembles it. */
  function ReviewTwiml(): string {
    "<Response>" + GREETING_SAY_TWIML_TEMPLATE + INSTRUCTIONS_SAY_TWIML + RECORD_VERB_TWIML + "</Response>"
  }

  /** Builds the call script by appending the fragments one at a time. */
  method GetReviewGreetingAndInstructionsTwiML() returns (twiml: string)
    ensures twiml == ReviewTwiml()
    ensures |twiml| > 21 && twiml[..10] == "<Response>" && twiml[|twiml| - 11..] == "</Response>"
  {
    twiml := "<Response>";
    twiml := twiml + GREETING_SAY_TWIML_TEMPLATE;
    twiml := twiml + INSTRUCTIONS_SAY_TWIML;
    twiml := twiml + RECORD_VERB_TWIML;
    twiml := twiml + "</Response>";
    ReviewTwimlFrame();
  }

  /** `part` occurs in `s` starting at index `i`. */
  predicate OccursAt(s: string, part: string, i: int) {
    0 <= i <= |s| - |part| && s[i..i + |part|] == part
  }

  predicate Contains(s: string, part: string) {
    exists i | 0 <= i <= |s| - |part| :: OccursAt(s, part, i)
  }

  lemma ContainsMiddle(a: string, b: string, c: string)
    ensures Contains(a + b + c, b)
  {
    var s := a + b + c;
    assert s[|a|..|a| + |b|] == b;
    assert OccursAt(s, b, |a|);
  }

  /** Text added after a string keeps what it contains. */
  lemma ContainsThen(s: string, part: string, after: string)
    requires Contains(s, part)
    ensures Contains(s + after, part)
  {
    var i :| 0 <= i <= |s| - |part| && OccursAt(s, part, i);
    assert (s + after)[i..i + |part|] == s[i..i + |part|];
    assert OccursAt(s + after, part, i);
  }

  /** Text added before a string keeps what it contains. */
  lemma ContainsAfter(before: string, s: string, part: string)
    requires Contains(s, part)
    ensures Contains(before + s, part)
  {
    var i :| 0 <= i <= |s| - |part| && OccursAt(s, part, i);
    assert (before + s)[|before| + i..|before| + i + |part|] == s[i..i + |part|];
    assert OccursAt(before + s, part, |before| + i);
  }

  /** The script is one `<Response>` element. */
  lemma ReviewTwimlFrame()
    ensures var t := ReviewTwiml();
      |t| > 21 && t[..10] == "<Response>" && t[|t| - 11..] == "</Response>"
  {
    var open := "<Response>";
    var inner := open + GREETING_SAY_TWIML_TEMPLATE + INSTRUCTIONS_SAY_TWIML + RECORD_VERB_TWIML;
    var front := open + GREETING_SAY_TWIML_TEMPLATE + INSTRUCTIONS_SAY_TWIML;
    assert (inner + "</Response>")[..10] == inner[..10];
    assert (front + RECORD_VERB_TWIML)[..10] == front[..10];
    assert (open + GREETING_SAY_TWIML_TEMPLATE + INSTRUCTIONS_SAY_TWIML)[..10] == (open + GREETING_SAY_TWIML_TEMPLATE)[..10];
    assert (open + GREETING_SAY_TWIML_TEMPLATE)[..10] == open;
    assert (inner + "</Response>")[|inner|..] == "</Response>";
  }

  /** The script greets the caller by the resort's name. */
  lemma ReviewTwimlGreets()
    ensures Contains(ReviewTwiml(), "Ahoy! Greetings from Twilio Resorts and Spas")
  {
    var g := "Ahoy! Greetings from Twilio Resorts and Spas";
    ContainsMiddle("\n\t<Say>", g, ".</Say>\n");
    ContainsAfter("<Response>", GREETING_SAY_TWIML_TEMPLATE, g);
    ContainsThen("<Response>" + GREETING_SAY_TWIML_TEMPLATE, g, INSTRUCTIONS_SAY_TWIML);
    ContainsThen("<Response>" + GREETING_SAY_TWIML_TEMPLATE + INSTRUCTIONS_SAY_TWIML, g, RECORD_VERB_TWIML);
    ContainsThen("<Response>" + GREETING_SAY_TWIML_TEMPLATE + INSTRUCTIONS_SAY_TWIML + RECORD_VERB_TWIML, g, "</Response>");
  }

  /** The script ends the call with a beep and a recording of at most 60
      seconds that stops after 10 seconds of silence. */
  lemma ReviewTwimlRecords()
    ensures Contains(ReviewTwiml(), "<Record timeout=\"10\" maxLength=\"60\" playBeep=\"true\"></Record>")
  {
    var r := "<Record timeout=\"10\" maxLength=\"60\" playBeep=\"true\"></Record>";
    var front := "<Response>" + GREETING_SAY_TWIML_TEMPLATE + INSTRUCTIONS_SAY_TWIML;
    ContainsMiddle("\n\t", r, "\t\n");
    ContainsAfter(front, RECORD_VERB_TWIML, r);
    ContainsThen(front + RECORD_VERB_TWIML, r, "</Response>");
  }
}
