/** The on-site assistant: intent matching over the lowercased message,
    the canned replies, the yes/no follow-up, the minimal ICS reader that
    collects busy days, and the chat panel's state. Environment settings,
    the clock and the date formatting are parameters. */
module Assistant {
  import opened Wrappers
  import opened Text
  import opened Availability

  datatype Intent = Greeting | BookingIntent | Call | Pricing | Services | Contact | End | Fallback

  /** An alternative of a pattern: literal words in order, each gap matched
      by `.*` (any characters but line terminators). A single word is a
      plain substring. */
  type Chain = seq<string>

  /** One test of `matchIntent`: the intent and the alternatives of its
      pattern. */
  datatype Rule = Rule(intent: Intent, alternatives: seq<Chain>)

  /** The seven tests, in the order they are tried. */
  const Rules: seq<Rule> := [
    Rule(Greeting, [["hi"], ["hello"], ["hey"], ["howdy"]]),
    Rule(BookingIntent, [["book"], ["schedule"], ["meeting"], ["availability"], ["available"], ["calendar"]]),
    Rule(Call, [["call"], ["phone"], ["ring"], ["dial"]]),
    Rule(Pricing, [["price"], ["cost"], ["rate"], ["how much"]]),
    Rule(Services, [["service"], ["offer"], ["what", "do", "you", "do"]]),
    Rule(Contact, [["email"], ["contact"], ["reach"]]),
    Rule(End, [["end"], ["finish"], ["done"], ["that", "helpful"], ["close chat"]])
  ]

  predicate NoLineTerminator(s: string) {
    forall i :: 0 <= i < |s| ==> !IsLineTerminator(s[i])
  }

  /** The chain matches starting exactly at position `i` of `text`. */
  predicate ChainAt(text: string, i: nat, chain: Chain)
    requires i <= |text|
    decreases |chain|
  {
    chain == [] ||
    (StartsWith(text[i..], chain[0]) &&
     (|chain| == 1 ||
      exists j | i + |chain[0]| <= j <= |text| ::
        NoLineTerminator(text[i + |chain[0]|..j]) && ChainAt(text, j, chain[1..])))
  }

  /** `pattern.test(text)`: some alternative matches somewhere. */
  predicate Matches(text: string, alternatives: seq<Chain>) {
    exists a, i | 0 <= a < |alternatives| && 0 <= i <= |text| :: ChainAt(text, i, alternatives[a])
  }

  /** The first rule from `k` on whose pattern matches, or `Fallback`. */
  function FirstMatch(text: string, k: nat): (r: Intent)
    requires k <= |Rules|
    decreases |Rules| - k
    ensures r == Fallback <==> forall j | k <= j < |Rules| :: !Matches(text, Rules[j].alternatives)
    ensures r != Fallback ==>
              exists j | k <= j < |Rules| ::
                Rules[j].intent == r && Matches(text, Rules[j].alternatives) &&
                forall m | k <= m < j :: !Matches(text, Rules[m].alternatives)
  {
    if k == |Rules| then Fallback
    else if Matches(text, Rules[k].alternatives) then Rules[k].intent
    else FirstMatch(text, k + 1)
  }

  /** `matchIntent`: the intent of the first of the seven tests that matches
      the lowercased message, `Fallback` when none does. */
  function MatchIntent(message: string): (r: Intent)
    ensures r == Fallback <==> forall j | 0 <= j < |Rules| :: !Matches(ToLower(message), Rules[j].alternatives)
    ensures r != Fallback ==>
              exists j | 0 <= j < |Rules| ::
                Rules[j].intent == r && Matches(ToLower(message), Rules[j].alternatives) &&
                forall m | 0 <= m < j :: !Matches(ToLower(message), Rules[m].alternatives)
  {
    FirstMatch(ToLower(message), 0)
  }

  lemma LowerCharIdempotent(c: char)
    ensures LowerChar(LowerChar(c)) == LowerChar(c)
  {
  }

  /** Matching ignores ASCII case: a message and its lowercase form get the
      same intent. */
  lemma MatchIntentIgnoresCase(message: string)
    ensures MatchIntent(ToLower(message)) == MatchIntent(message)
  {
    var t := ToLower(message);
    forall i | 0 <= i < |t| ensures ToLower(t)[i] == t[i] {
      LowerCharIdempotent(message[i]);
    }
    assert ToLower(t) == t;
  }

  /** Substring matching lets an earlier test win on a word part: "this"
      contains "hi", so a booking request that says "this" is a greeting. */
  lemma EarlierRuleWins()
    ensures MatchIntent("book this") == Greeting
  {
    var t := ToLower("book this");
    assert t == "book this";
    assert Rules[0].alternatives[0] == ["hi"];
    assert ChainAt(t, 6, Rules[0].alternatives[0]);
    assert Matches(t, Rules[0].alternatives);
  }

  const DefaultPhone: string := "0672089491"

  const GreetingReply: string := "Hi! I'm here to help with inquiries and scheduling. How can I help today?"
  const BookingDefaultReply: string :=
    "We'd love to meet! We're available Monday to Friday, 9 AM - 5 PM. Visit our Booking page to see our calendar and available time slots. You can also call us directly for immediate assistance."
  const PricingReply: string :=
    "Pricing varies by scope. Share a bit about your project, and we'll tailor a quote. Many projects start with a free 15-minute discovery call."
  const ServicesReply: string :=
    "We offer: Web Development (fast, conversion-focused sites), Film & Editing (concept to final cut), and Photography (product, lifestyle, events). Ask about any for details."
  const ContactReply: string := "You can email us at aidenwilliams336@gmail.com or book a call from the Booking page."
  const EndReply: string := "Thanks for chatting! Was that helpful? (yes/no)"
  const FallbackReply: string := "Got it. I'll do my best to help. You can also book a quick call if that's easier."
  const WelcomeText: string := "Hi! I'm the SOT Assistant. Ask about services, pricing, or availability."
  const YesFollowUp: string := "Awesome. I'm here if you need anything else!"
  const NoFollowUp: string := "Thanks for the feedback. What's missing or what can I clarify?"

  const DatesIntro: string :=
    "Great! I can see our availability. We're open Monday to Friday, 9 AM - 5 PM. Here are some upcoming times that work: "
  const DatesOutro: string :=
    ". You can also visit our Booking page to see the full calendar and select your preferred time."
  const UrlIntro: string := "You can see live availability and book instantly here: "
  const UrlOutro: string := ". We're available Monday to Friday, 9 AM - 5 PM. You'll get a confirmation email right away."
  const CallIntro: string := "You can call us directly at "
  const CallMiddle: string := ". Tap to dial: tel:"

  /** The build-time settings; the empty string means "not set". */
  datatype Env = Env(calendlyUrl: string, icsFeedUrl: string, phone: string)

  /** `x || y` on strings: the first unless it is empty. */
  function OrElse(x: string, y: string): (r: string)
    ensures r == if x != "" then x else y
  {
    if x != "" then x else y
  }

  /** The phone number shown: the configured one or the default, with all
      white space removed. */
  function PhoneNumber(env: Env): (r: string)
    ensures forall i :: 0 <= i < |r| ==> !IsSpace(r[i])
    ensures env.phone != "" && (forall i :: 0 <= i < |env.phone| ==> !IsSpace(env.phone[i])) ==>
              r == env.phone
  {
    RemoveSpaces(OrElse(env.phone, DefaultPhone))
  }

  /** Without a configured number, the default is shown as it is. */
  lemma DefaultPhoneShown(env: Env)
    requires env.phone == ""
    ensures PhoneNumber(env) == DefaultPhone
  {
    assert forall i :: 0 <= i < |DefaultPhone| ==> IsDigit(DefaultPhone[i]);
  }

  /** A configured number written in space-separated groups, such as
      "067 208 9491", is shown as its groups run together. */
  lemma PhoneNumberGroups(env: Env, a: string, b: string, c: string)
    requires env.phone == a + " " + b + " " + c
    requires forall i :: 0 <= i < |a| ==> !IsSpace(a[i])
    requires forall i :: 0 <= i < |b| ==> !IsSpace(b[i])
    requires forall i :: 0 <= i < |c| ==> !IsSpace(c[i])
    ensures PhoneNumber(env) == a + b + c
  {
    assert OrElse(env.phone, DefaultPhone) == a + " " + b + " " + c;
    RemoveSpacesGroups(a, b, c);
  }

  /** `a + t + b` starts with `a` and with `a + t`, and contains `t`. */
  lemma Infix(a: string, t: string, b: string)
    ensures StartsWith(a + t + b, a) && StartsWith(a + t + b, a + t) && Contains(a + t + b, t)
  {
    assert (a + t + b)[..|a|] == a;
    assert (a + t + b)[..|a + t|] == a + t;
    assert (a + t + b)[|a|..][..|t|] == t;
  }

  /** `getReply`: the canned text of each intent; for a booking, suggested
      times win over the booking link, which wins over the default text. */
  function GetReply(intent: Intent, calendlyUrl: string, env: Env, suggestedDatesText: string): string {
    match intent
    case Greeting => GreetingReply
    case BookingIntent =>
      var url := OrElse(calendlyUrl, env.calendlyUrl);
      if suggestedDatesText != "" then DatesIntro + suggestedDatesText + DatesOutro
      else if url != "" then UrlIntro + url + UrlOutro
      else BookingDefaultReply
    case Call =>
      var phone := PhoneNumber(env);
      CallIntro + phone + CallMiddle + phone
    case Pricing => PricingReply
    case Services => ServicesReply
    case Contact => ContactReply
    case End => EndReply
    case Fallback => FallbackReply
  }

  /** A booking reply quotes the suggested times when there are any, else
      the booking link when one is configured, else the default text. */
  lemma BookingReplyOrder(calendlyUrl: string, env: Env, suggestedDatesText: string)
    ensures var r := GetReply(BookingIntent, calendlyUrl, env, suggestedDatesText);
            var url := OrElse(calendlyUrl, env.calendlyUrl);
            (suggestedDatesText != "" ==> StartsWith(r, DatesIntro) && Contains(r, suggestedDatesText)) &&
            (suggestedDatesText == "" && url != "" ==> StartsWith(r, UrlIntro) && Contains(r, url)) &&
            (suggestedDatesText == "" && url == "" ==> r == BookingDefaultReply)
  {
    Infix(DatesIntro, suggestedDatesText, DatesOutro);
    Infix(UrlIntro, OrElse(calendlyUrl, env.calendlyUrl), UrlOutro);
  }

  /** A call reply opens with the phone number and shows it. */
  lemma CallReplyShowsPhone(calendlyUrl: string, env: Env, suggestedDatesText: string)
    ensures var r := GetReply(Call, calendlyUrl, env, suggestedDatesText);
            StartsWith(r, CallIntro + PhoneNumber(env)) && Contains(r, PhoneNumber(env))
  {
    var phone := PhoneNumber(env);
    var tail := CallMiddle + phone;
    assert GetReply(Call, calendlyUrl, env, suggestedDatesText) == CallIntro + phone + tail;
    Infix(CallIntro, phone, tail);
  }

  /** Only the booking and call replies depend on the settings and the
      suggested times; every other intent has one fixed text. */
  lemma FixedReplies(intent: Intent, calendlyUrl: string, env: Env, suggestedDatesText: string,
                     calendlyUrl': string, env': Env, suggestedDatesText': string)
    requires intent != BookingIntent && intent != Call
    ensures GetReply(intent, calendlyUrl, env, suggestedDatesText) ==
            GetReply(intent, calendlyUrl', env', suggestedDatesText')
    ensures intent == Greeting ==> GetReply(intent, calendlyUrl, env, suggestedDatesText) == GreetingReply
    ensures intent == Fallback ==> GetReply(intent, calendlyUrl, env, suggestedDatesText) == FallbackReply
  {
  }

  /** `parts.join(sep)`. */
  function Join(parts: seq<string>, sep: string): (r: string)
    ensures |parts| == 1 ==> r == parts[0]
  {
    if parts == [] then []
    else if |parts| == 1 then parts[0]
    else Join(parts[..|parts| - 1], sep) + sep + parts[|parts| - 1]
  }

  /** The text of one suggestion, `"<date> at <time> or <time>"`, with the
      date-fns formatting of dates and times supplied by the caller. */
  function SuggestionText(s: Suggestion, dateLabel: int -> string, timeLabel: int -> string): string {
    dateLabel(s.date) + " at " + Join(seq(|s.times|, i requires 0 <= i < |s.times| => timeLabel(s.times[i])), " or ")
  }

  /** `suggestedDates.length ? suggestedDates.join(', ') : ''`. */
  function SuggestedDatesText(suggestions: seq<Suggestion>, dateLabel: int -> string, timeLabel: int -> string)
    : (r: string)
    ensures suggestions == [] ==> r == ""
    ensures suggestions != [] ==> r != []
  {
    if suggestions == [] then ""
    else
      var texts := seq(|suggestions|, i requires 0 <= i < |suggestions| =>
                       SuggestionText(suggestions[i], dateLabel, timeLabel));
      JoinNonEmpty(texts, ", ");
      Join(texts, ", ")
  }

  lemma {:induction false} JoinNonEmpty(parts: seq<string>, sep: string)
    requires parts != [] && forall i :: 0 <= i < |parts| ==> |parts[i]| >= 4
    ensures |Join(parts, sep)| >= 4
  {
    if |parts| > 1 {
      assert |parts[|parts| - 1]| >= 4;
    }
  }

  /** `\b<word>\b` with the `i` flag at position `i`: the word, in any ASCII
      case, not preceded or followed by a word character. */
  predicate WordAt(text: string, i: nat, word: string) {
    i + |word| <= |text| && ToLower(text[i..i + |word|]) == word &&
    (i == 0 || !IsWordChar(text[i - 1])) &&
    (i + |word| == |text| || !IsWordChar(text[i + |word|]))
  }

  predicate HasWord(text: string, words: seq<string>) {
    exists w, i | 0 <= w < |words| && 0 <= i <= |text| :: WordAt(text, i, words[w])
  }

  const YesWords: seq<string> := ["yes", "yep", "yeah", "helpful", "great", "good"]
  const NoWords: seq<string> := ["no", "not really", "nope"]

  /** The extra answer to the helpfulness prompt: yes-words are tried first. */
  function FollowUp(text: string): (r: Option<string>)
    ensures r == Some(YesFollowUp) <==> HasWord(text, YesWords)
    ensures r == Some(NoFollowUp) <==> !HasWord(text, YesWords) && HasWord(text, NoWords)
    ensures r == None <==> !HasWord(text, YesWords) && !HasWord(text, NoWords)
  {
    if HasWord(text, YesWords) then Some(YesFollowUp)
    else if HasWord(text, NoWords) then Some(NoFollowUp)
    else None
  }

  /** A word inside a longer word does not count: "nobody" has no `\bno\b`. */
  lemma WordNeedsBoundary()
    ensures WordAt("No thanks", 0, "no")
    ensures !WordAt("nobody", 0, "no")
  {
    assert ToLower("No thanks"[0..2]) == "no";
  }

  datatype Role = Agent | User

  datatype ChatMessage = ChatMessage(id: int, role: Role, text: string)

  /** The messages one send appends: the user's trimmed text, the reply, and
      the follow-up if there is one. Each id is read from the clock when its
      message is built (`t0`, then `t1`, then `t2`), plus 0, 1 or 2; with a
      clock that does not run backwards the ids strictly increase. */
  function Exchange(trimmed: string, reply: string, t0: int, t1: int, t2: int): (items: seq<ChatMessage>)
    ensures |items| == if FollowUp(trimmed).Some? then 3 else 2
    ensures items[0] == ChatMessage(t0, User, trimmed)
    ensures items[1] == ChatMessage(t1 + 1, Agent, reply)
    ensures |items| == 3 ==> items[2] == ChatMessage(t2 + 2, Agent, FollowUp(trimmed).value)
    ensures t0 <= t1 <= t2 ==> forall i, j :: 0 <= i < j < |items| ==> items[i].id < items[j].id
  {
    var items := [ChatMessage(t0, User, trimmed), ChatMessage(t1 + 1, Agent, reply)];
    match FollowUp(trimmed)
    case Some(text) => items + [ChatMessage(t2 + 2, Agent, text)]
    case None => items
  }

  /** A `VEVENT` being read: the values of its DTSTART and DTEND lines
      (`None` for `undefined`). */
  datatype Event = Event(start: Option<string>, end: Option<string>)

  /** The reader's state after some lines: the days collected and the open
      event (`None` for `null`). */
  datatype IcsState = IcsState(days: set<string>, current: Option<Event>)

  const NullEventError: string := "property of null event"

  /** The position of the first occurrence of `c` in `s`; `IndexOfFirst`
      shows it is the first. */
  function IndexOf(s: string, c: char): (r: Option<nat>)
    ensures r.Some? ==> r.value < |s| && s[r.value] == c
  {
    if s == [] then None
    else if s[0] == c then Some(0)
    else match IndexOf(s[1..], c)
      case None => None
      case Some(k) => Some(k + 1)
  }

  /** `indexOf`: `None` exactly when `c` does not occur, otherwise the
      position of its first occurrence. */
  lemma {:induction false} IndexOfFirst(s: string, c: char)
    ensures IndexOf(s, c).None? <==> c !in s
    ensures IndexOf(s, c).Some? ==> c !in s[..IndexOf(s, c).value]
  {
    if s != [] && s[0] != c {
      IndexOfFirst(s[1..], c);
      assert s == [s[0]] + s[1..];
      if IndexOf(s[1..], c).Some? {
        var k := IndexOf(s[1..], c).value;
        assert s[..k + 1] == [s[0]] + s[1..][..k];
      }
    }
  }

  /** `line.split(':')[1]`: the text between the first and the second colon
      (or the end), `None` when there is no colon. `SecondFieldAt` states
      this. */
  function SecondField(line: string): Option<string> {
    match IndexOf(line, ':')
    case None => None
    case Some(k) =>
      var rest := line[k + 1..];
      match IndexOf(rest, ':')
      case None => Some(rest)
      case Some(m) => Some(rest[..m])
  }

  /** The field is `None` exactly when the line has no colon. Otherwise it
      starts after the first colon `k`, holds no colon, and runs to the next
      colon or to the end of the line. */
  lemma SecondFieldAt(line: string) returns (k: nat)
    ensures SecondField(line).None? <==> ':' !in line
    ensures SecondField(line).Some? ==>
              var v := SecondField(line).value;
              k < |line| && line[k] == ':' && ':' !in line[..k] &&
              ':' !in v && k + 1 + |v| <= |line| && line[k + 1..][..|v|] == v &&
              (k + 1 + |v| == |line| || line[k + 1 + |v|] == ':')
  {
    k := 0;
    IndexOfFirst(line, ':');
    match IndexOf(line, ':')
    case None =>
    case Some(i) =>
      k := i;
      var rest := line[k + 1..];
      IndexOfFirst(rest, ':');
      match IndexOf(rest, ':')
      case None =>
      case Some(m) =>
        assert rest[..m] == line[k + 1..][..m];
  }

  /** `${y}-${m}-${d}` from the substrings 0-4, 4-6 and 6-8 of a DTSTART value. */
  function DayKey(v: string): (r: string)
    ensures |v| >= 8 ==> r == v[0..4] + "-" + v[4..6] + "-" + v[6..8] && |r| == 10
  {
    Substring(v, 0, 4) + "-" + Substring(v, 4, 6) + "-" + Substring(v, 6, 8)
  }

  /** The DTSTART value of an open event, when it is truthy (set and non-empty). */
  predicate HasStart(current: Option<Event>) {
    current.Some? && current.value.start.Some? && current.value.start.value != ""
  }

  /** One line of the reader. A DTSTART or DTEND line while no event is open
      fails, as the source dereferences `null` there. */
  function Step(st: IcsState, line: string): (r: Result<IcsState>)
    ensures r.Err? <==>
              !StartsWith(line, "BEGIN:VEVENT") && st.current.None? &&
              (StartsWith(line, "DTSTART") || StartsWith(line, "DTEND"))
    ensures r.Ok? && r.value.days != st.days ==>
              StartsWith(line, "END:VEVENT") && HasStart(st.current) &&
              r.value.days == st.days + {DayKey(st.current.value.start.value)}
    ensures (!StartsWith(line, "BEGIN:VEVENT") && !StartsWith(line, "DTSTART") &&
             !StartsWith(line, "DTEND") && !StartsWith(line, "END:VEVENT")) ==> r == Ok(st)
    ensures r.Ok? ==> st.days <= r.value.days
    // The branch-by-branch effects below are what `ScanComplete`, the
    // partner of `ScanSound`, is built from.
    // BEGIN:VEVENT opens a fresh event, whatever was open.
    ensures StartsWith(line, "BEGIN:VEVENT") ==> r == Ok(st.(current := Some(Event(None, None))))
    // DTSTART and DTEND record their value in the open event and nothing else.
    ensures !StartsWith(line, "BEGIN:VEVENT") && StartsWith(line, "DTSTART") && st.current.Some? ==>
              r == Ok(st.(current := Some(st.current.value.(start := SecondField(line)))))
    ensures !StartsWith(line, "BEGIN:VEVENT") && !StartsWith(line, "DTSTART") && StartsWith(line, "DTEND") &&
            st.current.Some? ==>
              r == Ok(st.(current := Some(st.current.value.(end := SecondField(line)))))
    // END:VEVENT of an event with a start adds its day and closes it.
    ensures !StartsWith(line, "BEGIN:VEVENT") && !StartsWith(line, "DTSTART") && !StartsWith(line, "DTEND") &&
            StartsWith(line, "END:VEVENT") && HasStart(st.current) ==>
              r == Ok(IcsState(st.days + {DayKey(st.current.value.start.value)}, None))
  {
    if StartsWith(line, "BEGIN:VEVENT") then Ok(st.(current := Some(Event(None, None))))
    else if StartsWith(line, "DTSTART") then
      if st.current.None? then Err(NullEventError)
      else Ok(st.(current := Some(st.current.value.(start := SecondField(line)))))
    else if StartsWith(line, "DTEND") then
      if st.current.None? then Err(NullEventError)
      else Ok(st.(current := Some(st.current.value.(end := SecondField(line)))))
    else if StartsWith(line, "END:VEVENT") && HasStart(st.current) then
      Ok(IcsState(st.days + {DayKey(st.current.value.start.value)}, None))
    else Ok(st)
  }

  const IcsStart: IcsState := IcsState({}, None)

  /** The reader after the given lines, from no days and no open event. */
  function Scan(lines: seq<string>): Result<IcsState> {
    if lines == [] then Ok(IcsStart)
    else match Scan(lines[..|lines| - 1])
      case Err(e) => Err(e)
      case Ok(st) => Step(st, lines[|lines| - 1])
  }

  /** `s.split(/\r?\n/)`: the pieces between line breaks, a carriage
      return just before a break belonging to the break. */
  function SplitLines(s: string): (r: seq<string>)
    ensures |r| >= 1
    ensures forall i :: 0 <= i < |r| ==> '\n' !in r[i]
    decreases |s|
  {
    match IndexOf(s, '\n')
    case None => assert '\n' !in s by { IndexOfFirst(s, '\n'); } [s]
    case Some(j) =>
      var line := if j > 0 && s[j - 1] == '\r' then s[..j - 1] else s[..j];
      assert '\n' !in line by { IndexOfFirst(s, '\n'); assert line == s[..j][..|line|]; }
      [line] + SplitLines(s[j + 1..])
  }

  /** `Array.prototype.join` of at least two parts: the first part, the
      separator, and the join of the rest. */
  lemma {:induction false} JoinCons(part: string, parts: seq<string>, sep: string)
    requires |parts| >= 1
    ensures Join([part] + parts, sep) == part + sep + Join(parts, sep)
    decreases |parts|
  {
    var all := [part] + parts;
    if |parts| == 1 {
      assert all[..|all| - 1] == [part];
    } else {
      var init := parts[..|parts| - 1];
      assert all[..|all| - 1] == [part] + init;
      JoinCons(part, init, sep);
      assert Join(all, sep) == part + sep + Join(init, sep) + sep + parts[|parts| - 1];
    }
  }

  /** Without carriage returns, splitting at line breaks loses nothing:
      joining the pieces with line breaks gives the text back. */
  lemma {:induction false} SplitLinesRoundTrip(s: string)
    requires forall i :: 0 <= i < |s| ==> s[i] != '\r'
    ensures Join(SplitLines(s), "\n") == s
    decreases |s|
  {
    IndexOfFirst(s, '\n');
    match IndexOf(s, '\n')
    case None =>
    case Some(j) =>
      var rest := s[j + 1..];
      SplitLinesAt(s, j);
      JoinCons(s[..j], SplitLines(rest), "\n");
      SplitLinesRoundTrip(rest);
      SplitAround(s, j);
  }

  lemma SplitAround(s: string, j: nat)
    requires j < |s|
    ensures s == s[..j] + [s[j]] + s[j + 1..]
  {
  }

  /** The first piece of a split, when the first break has no carriage
      return before it. */
  lemma SplitLinesAt(s: string, j: nat)
    requires IndexOf(s, '\n') == Some(j) && (j == 0 || s[j - 1] != '\r')
    ensures SplitLines(s) == [s[..j]] + SplitLines(s[j + 1..])
  {
  }

  /** A position holding `c` with no `c` before it is what `IndexOf` finds. */
  lemma IndexOfAt(s: string, j: nat, c: char)
    requires j < |s| && s[j] == c && c !in s[..j]
    ensures IndexOf(s, c) == Some(j)
  {
    IndexOfFirst(s, c);
    assert s[j] in s;
  }

  /** The other round trip: lines without line breaks, joined with LF or
      with CRLF, split back into the same lines. With LF, a line other than
      the last must not end in a carriage return, which the split would take
      as part of the break. */
  lemma {:induction false} JoinSplitRoundTrip(lines: seq<string>, sep: string)
    requires sep == "\n" || sep == "\r\n"
    requires |lines| >= 1 && forall i :: 0 <= i < |lines| ==> '\n' !in lines[i]
    requires sep == "\n" ==>
               forall i :: 0 <= i < |lines| - 1 ==> lines[i] == [] || lines[i][|lines[i]| - 1] != '\r'
    ensures SplitLines(Join(lines, sep)) == lines
    decreases |lines|
  {
    if |lines| == 1 {
      IndexOfFirst(lines[0], '\n');
    } else {
      var first, rest := lines[0], lines[1..];
      assert lines == [first] + rest;
      JoinCons(first, rest, sep);
      var t := Join(rest, sep);
      var s := first + sep + t;
      var j := |first| + |sep| - 1;
      assert s[j] == '\n' && s[..j] == first + sep[..|sep| - 1] && s[j + 1..] == t;
      IndexOfAt(s, j, '\n');
      if sep == "\r\n" {
        assert s[j - 1] == '\r' && s[..j - 1] == first;
      } else if j > 0 {
        assert s[j - 1] == first[|first| - 1];
      }
      var line := if j > 0 && s[j - 1] == '\r' then s[..j - 1] else s[..j];
      assert line == first;
      assert SplitLines(s) == [first] + SplitLines(t);
      JoinSplitRoundTrip(rest, sep);
    }
  }


  /** `parseIcsBusyDates` as a value: the busy days, or the failure. */
  function IcsBusyDates(text: string): Result<set<string>> {
    match Scan(SplitLines(text))
    case Err(e) => Err(e)
    case Ok(st) => Ok(st.days)
  }

  /** Every value of a DTSTART line of `lines`. */
  predicate FromStartLine(lines: seq<string>, v: string) {
    exists i :: 0 <= i < |lines| && StartsWith(lines[i], "DTSTART") && SecondField(lines[i]) == Some(v)
  }

  /** Every collected day comes from a non-empty DTSTART value of some line,
      and so does the start of the open event. */
  lemma {:induction false} ScanSound(lines: seq<string>)
    ensures Scan(lines).Ok? ==>
              (forall d :: d in Scan(lines).value.days ==>
                 exists v :: v != "" && FromStartLine(lines, v) && d == DayKey(v)) &&
              (HasStart(Scan(lines).value.current) ==> FromStartLine(lines, Scan(lines).value.current.value.start.value))
  {
    if lines != [] {
      var init := lines[..|lines| - 1];
      var line := lines[|lines| - 1];
      ScanSound(init);
      if Scan(init).Ok? {
        var st := Scan(init).value;
        forall v | FromStartLine(init, v) ensures FromStartLine(lines, v) {
          var i :| 0 <= i < |init| && StartsWith(init[i], "DTSTART") && SecondField(init[i]) == Some(v);
          assert lines[i] == init[i];
        }
        if Step(st, line).Ok? && StartsWith(line, "DTSTART") && !StartsWith(line, "BEGIN:VEVENT") &&
           HasStart(Step(st, line).value.current) {
          assert lines[|lines| - 1] == line;
          assert FromStartLine(lines, Step(st, line).value.current.value.start.value);
        }
      }
    }
  }

  /** Lines without any of the four prefixes change nothing. */
  lemma {:induction false} ScanSkipsOtherLines(lines: seq<string>, other: seq<string>)
    requires forall i :: 0 <= i < |other| ==>
               !StartsWith(other[i], "BEGIN:VEVENT") && !StartsWith(other[i], "DTSTART") &&
               !StartsWith(other[i], "DTEND") && !StartsWith(other[i], "END:VEVENT")
    ensures Scan(lines + other) == Scan(lines)
    decreases |other|
  {
    if other != [] {
      var init := other[..|other| - 1];
      ScanSkipsOtherLines(lines, init);
      var all := lines + other;
      assert all[..|all| - 1] == lines + init;
      assert all[|all| - 1] == other[|other| - 1];
      assert Scan(all) == (match Scan(lines + init)
                           case Err(e) => Err(e)
                           case Ok(st) => Step(st, other[|other| - 1]));
    } else {
      assert lines + other == lines;
    }
  }

  /** Once the reader fails, it stays failed. */
  lemma {:induction false} ScanErrPersists(lines: seq<string>, n: nat)
    requires n <= |lines| && Scan(lines[..n]).Err?
    ensures Scan(lines) == Scan(lines[..n])
    decreases |lines| - n
  {
    if n < |lines| {
      assert lines[..n + 1][..n] == lines[..n];
      assert Scan(lines[..n + 1]) == Scan(lines[..n]);
      ScanErrPersists(lines, n + 1);
    } else {
      assert lines[..n] == lines;
    }
  }

  /** A DTSTART or DTEND line with no BEGIN:VEVENT line before it fails the
      whole read. */
  lemma {:induction false} NullEventFails(lines: seq<string>, k: nat)
    requires k < |lines|
    requires forall i :: 0 <= i < k ==> !StartsWith(lines[i], "BEGIN:VEVENT")
    requires StartsWith(lines[k], "DTSTART") || StartsWith(lines[k], "DTEND")
    ensures Scan(lines).Err?
  {
    NoEventBeforeBegin(lines, k);
    assert lines[..k + 1][..k] == lines[..k];
    assert lines[..k + 1][k] == lines[k];
    assert lines[k][0] == 'D';
    ScanErrPersists(lines, k + 1);
  }

  /** Before the first BEGIN:VEVENT line no event is open. */
  lemma {:induction false} NoEventBeforeBegin(lines: seq<string>, n: nat)
    requires n <= |lines|
    requires forall i :: 0 <= i < n ==> !StartsWith(lines[i], "BEGIN:VEVENT")
    ensures Scan(lines[..n]).Ok? ==> Scan(lines[..n]).value.current.None?
  {
    if n > 0 {
      NoEventBeforeBegin(lines, n - 1);
      assert lines[..n][..n - 1] == lines[..n - 1];
      assert lines[..n][n - 1] == lines[n - 1];
    }
  }

  /** One more line is one more step of the reader. */
  lemma ScanSnoc(lines: seq<string>, k: nat)
    requires k < |lines|
    ensures Scan(lines[..k + 1]) ==
            if Scan(lines[..k]).Err? then Scan(lines[..k]) else Step(Scan(lines[..k]).value, lines[k])
  {
    assert lines[..k + 1][..k] == lines[..k];
  }

  /** A read that succeeds succeeded on every prefix, and the days collected
      on a prefix are all kept. */
  lemma {:induction false} ScanDaysGrow(lines: seq<string>, n: nat)
    requires n <= |lines| && Scan(lines).Ok?
    ensures Scan(lines[..n]).Ok? && Scan(lines[..n]).value.days <= Scan(lines).value.days
    decreases |lines| - n
  {
    if n == |lines| {
      assert lines[..n] == lines;
    } else {
      ScanDaysGrow(lines, n + 1);
      ScanSnoc(lines, n);
    }
  }

  /** After the first `n` lines the read has not failed and an event whose
      start is `start` is open. */
  predicate OpenAt(lines: seq<string>, n: nat, start: Option<string>) {
    n <= |lines| && Scan(lines[..n]).Ok? && Scan(lines[..n]).value.current.Some? &&
    Scan(lines[..n]).value.current.value.start == start
  }

  /** After the first `n` lines the read has not failed and `d` is among
      its busy days. */
  predicate DayAt(lines: seq<string>, n: nat, d: string) {
    n <= |lines| && Scan(lines[..n]).Ok? && d in Scan(lines[..n]).value.days
  }

  /** Lines `lo` to `hi - 1` neither open an event, nor set its start, nor
      close it. */
  predicate Quiet(lines: seq<string>, lo: nat, hi: nat) {
    forall i :: lo <= i < hi && i < |lines| ==>
      !StartsWith(lines[i], "BEGIN:VEVENT") && !StartsWith(lines[i], "DTSTART") &&
      !StartsWith(lines[i], "END:VEVENT")
  }

  /** A day collected on a prefix of a read that succeeds is in its result. */
  lemma DayKept(lines: seq<string>, n: nat, d: string)
    requires Scan(lines).Ok? && DayAt(lines, n, d)
    ensures d in Scan(lines).value.days
  {
    ScanDaysGrow(lines, n);
  }

  /** Lines that neither open an event, nor set its start, nor close it keep
      the open event and its start. */
  lemma {:induction false} EventStaysOpen(lines: seq<string>, lo: nat, hi: nat, start: Option<string>)
    requires lo <= hi <= |lines| && OpenAt(lines, lo, start) && Quiet(lines, lo, hi)
    ensures OpenAt(lines, hi, start)
    decreases hi
  {
    if lo < hi {
      EventStaysOpen(lines, lo, hi - 1, start);
      ScanSnoc(lines, hi - 1);
    }
  }

  /** Two prefixes that differ in their first character cannot both start a
      line. */
  lemma PrefixClash(line: string, p: string, q: string)
    requires |p| >= 1 && |q| >= 1 && p[0] != q[0]
    ensures !(StartsWith(line, p) && StartsWith(line, q))
  {
  }

  /** BEGIN:VEVENT opens an event with no start. */
  lemma BeginOpens(lines: seq<string>, b: nat)
    requires b < |lines| && Scan(lines[..b]).Ok? && StartsWith(lines[b], "BEGIN:VEVENT")
    ensures OpenAt(lines, b + 1, None)
  {
    ScanSnoc(lines, b);
  }

  /** A DTSTART line while an event is open records its value as the start. */
  lemma StartRecorded(lines: seq<string>, s: nat, v: string)
    requires s < |lines| && Scan(lines[..s]).Ok? && Scan(lines[..s]).value.current.Some?
    requires StartsWith(lines[s], "DTSTART") && SecondField(lines[s]) == Some(v)
    ensures OpenAt(lines, s + 1, Some(v))
  {
    ScanSnoc(lines, s);
    PrefixClash(lines[s], "DTSTART", "BEGIN:VEVENT");
  }

  /** END:VEVENT of an event whose start is `v` adds the day of `v`. */
  lemma EndAddsDay(lines: seq<string>, e: nat, v: string)
    requires e < |lines| && OpenAt(lines, e, Some(v)) && v != ""
    requires StartsWith(lines[e], "END:VEVENT")
    ensures DayAt(lines, e + 1, DayKey(v))
  {
    ScanSnoc(lines, e);
    PrefixClash(lines[e], "END:VEVENT", "BEGIN:VEVENT");
    PrefixClash(lines[e], "END:VEVENT", "DTSTART");
    PrefixClash(lines[e], "END:VEVENT", "DTEND");
  }

  /** From BEGIN:VEVENT to its DTSTART line, with no line in between that
      opens, starts or closes an event: the open event's start is `v`. */
  lemma EventStarted(lines: seq<string>, b: nat, s: nat, v: string)
    requires b < s < |lines| && Scan(lines[..b]).Ok?
    requires StartsWith(lines[b], "BEGIN:VEVENT")
    requires StartsWith(lines[s], "DTSTART") && SecondField(lines[s]) == Some(v)
    requires Quiet(lines, b + 1, s)
    ensures OpenAt(lines, s + 1, Some(v))
  {
    BeginOpens(lines, b);
    EventStaysOpen(lines, b + 1, s, None);
    StartRecorded(lines, s, v);
  }

  /** The END:VEVENT that closes an open event whose start is `v` adds the
      day of `v`. */
  lemma EventClosed(lines: seq<string>, s: nat, e: nat, v: string)
    requires s < e < |lines| && OpenAt(lines, s + 1, Some(v)) && v != ""
    requires StartsWith(lines[e], "END:VEVENT")
    requires Quiet(lines, s + 1, e)
    ensures DayAt(lines, e + 1, DayKey(v))
  {
    EventStaysOpen(lines, s + 1, e, Some(v));
    EndAddsDay(lines, e, v);
  }

  /** The partner of `ScanSound`: an event written as BEGIN:VEVENT, a
      DTSTART line with a non-empty value, and END:VEVENT, with no other
      BEGIN:VEVENT, DTSTART or END:VEVENT line among them, has its day among
      the busy days of a read that succeeds. DTEND lines in between change
      nothing that reaches the result. */
  lemma ScanComplete(lines: seq<string>, b: nat, s: nat, e: nat, v: string)
    requires b < s < e < |lines| && Scan(lines).Ok?
    requires StartsWith(lines[b], "BEGIN:VEVENT")
    requires StartsWith(lines[s], "DTSTART") && SecondField(lines[s]) == Some(v) && v != ""
    requires StartsWith(lines[e], "END:VEVENT")
    requires Quiet(lines, b + 1, s) && Quiet(lines, s + 1, e)
    ensures DayKey(v) in Scan(lines).value.days
  {
    ScanDaysGrow(lines, b);
    EventStarted(lines, b, s, v);
    EventClosed(lines, s, e, v);
    DayKept(lines, e + 1, DayKey(v));
  }

  /** The chat panel's state. `service` is the shared availability store. */
  class ChatAgent {
    var open: bool
    var input: string
    var messages: seq<ChatMessage>
    var busyDates: set<string>
    const env: Env
    const calendlyUrl: string
    const service: AvailabilityService

    constructor (env: Env, service: AvailabilityService)
      ensures this.env == env && this.service == service && calendlyUrl == env.calendlyUrl
      ensures !open && input == "" && busyDates == {}
      ensures messages == [ChatMessage(1, Agent, WelcomeText)]
    {
      this.env := env;
      this.service := service;
      calendlyUrl := OrElse(env.calendlyUrl, "");
      open := false;
      input := "";
      messages := [ChatMessage(1, Agent, WelcomeText)];
      busyDates := {};
    }

    /** The floating button: opens or closes the panel. */
    method Toggle()
      modifies this
      ensures open == !old(open)
      ensures input == old(input) && messages == old(messages) && busyDates == old(busyDates)
    {
      open := !open;
    }

    /** The close button. */
    method Close()
      modifies this
      ensures !open
      ensures input == old(input) && messages == old(messages) && busyDates == old(busyDates)
    {
      open := false;
    }

    method SetInput(value: string)
      modifies this
      ensures input == value
      ensures open == old(open) && messages == old(messages) && busyDates == old(busyDates)
    {
      input := value;
    }

    /** `parseIcsBusyDates`, reading the lines one by one. */
    method ParseIcsBusyDates(text: string) returns (r: Result<set<string>>)
      ensures r == IcsBusyDates(text)
    {
      var lines := SplitLines(text);
      var days: set<string> := {};
      var current: Option<Event> := None;
      for i := 0 to |lines|
        invariant Scan(lines[..i]) == Ok(IcsState(days, current))
      {
        assert lines[..i + 1][..i] == lines[..i];
        var line := lines[i];
        if StartsWith(line, "BEGIN:VEVENT") {
          current := Some(Event(None, None));
        } else if StartsWith(line, "DTSTART") {
          if current.None? {
            ScanErrPersists(lines, i + 1);
            return Err(NullEventError);
          }
          current := Some(current.value.(start := SecondField(line)));
        } else if StartsWith(line, "DTEND") {
          if current.None? {
            ScanErrPersists(lines, i + 1);
            return Err(NullEventError);
          }
          current := Some(current.value.(end := SecondField(line)));
        } else if StartsWith(line, "END:VEVENT") && HasStart(current) {
          days := days + {DayKey(current.value.start.value)};
          current := None;
        }
      }
      assert lines[..|lines|] == lines;
      return Ok(days);
    }

    /** The feed effect once the text has arrived: without a feed URL the
        effect returns at once, empty text (also what a failed response
        yields) is ignored, a read that fails is swallowed, otherwise the
        busy days are replaced. */
    method ApplyIcsText(text: string)
      modifies this
      ensures env.icsFeedUrl != "" && text != "" && IcsBusyDates(text).Ok? ==>
                busyDates == IcsBusyDates(text).value
      ensures env.icsFeedUrl == "" || text == "" || IcsBusyDates(text).Err? ==> busyDates == old(busyDates)
      ensures open == old(open) && input == old(input) && messages == old(messages)
    {
      if env.icsFeedUrl == "" || text == "" {
        return;
      }
      var days := ParseIcsBusyDates(text);
      if days.Ok? {
        busyDates := days.value;
      }
    }

    /** The reply `sendMessage` appends for a trimmed message: its intent's
        text, with the days the store offers in the next week. */
    method Answer(trimmed: string, today: int, dateLabel: int -> string, timeLabel: int -> string)
      returns (reply: string)
      ensures reply == GetReply(MatchIntent(trimmed), calendlyUrl, env,
                                SuggestedDatesText(
                                  Suggestions(UpcomingAvailableDates(service.bookedSlots, service.blockedDates,
                                                                     service.workingHours, today, 7)),
                                  dateLabel, timeLabel))
    {
      var intent := MatchIntent(trimmed);
      var suggestedDates := service.GetSuggestedDatesForBot(today);
      var suggestedDatesText := SuggestedDatesText(suggestedDates, dateLabel, timeLabel);
      reply := GetReply(intent, calendlyUrl, env, suggestedDatesText);
    }

    /** The two state updates that end a send: the items are appended to
        the conversation and the input box is emptied. */
    method Post(items: seq<ChatMessage>)
      modifies this
      ensures messages == old(messages) + items && input == ""
      ensures open == old(open) && busyDates == old(busyDates)
    {
      messages := messages + items;
      input := "";
    }

    /** `sendMessage`: blank input changes nothing; otherwise the trimmed text,
        the reply to its intent (with up to three suggested days from the
        store) and the follow-up are appended, and the input is cleared.
        `t0`, `t1` and `t2` are the three `Date.now()` readings. */
    method SendMessage(t0: int, t1: int, t2: int, today: int, dateLabel: int -> string, timeLabel: int -> string)
      modifies this
      ensures IsBlank(old(input)) ==> messages == old(messages) && input == old(input)
      ensures !IsBlank(old(input)) ==>
                var trimmed := Trim(old(input));
                var text := SuggestedDatesText(
                  Suggestions(UpcomingAvailableDates(old(service.bookedSlots), old(service.blockedDates),
                                                     old(service.workingHours), today, 7)),
                  dateLabel, timeLabel);
                messages == old(messages) +
                  Exchange(trimmed, GetReply(MatchIntent(trimmed), calendlyUrl, env, text), t0, t1, t2) &&
                input == ""
      ensures open == old(open) && busyDates == old(busyDates)
    {
      var trimmed := Trim(input);
      TrimEmptyIff(input);
      if trimmed == [] {
        return;
      }
      var reply := Answer(trimmed, today, dateLabel, timeLabel);
      var items := Exchange(trimmed, reply, t0, t1, t2);
      Post(items);
    }
  }
}
