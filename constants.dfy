/** The dashboard's fixed data (src/constants.ts): the sample conversation
    shown on load and the instruction bound to each persona.

    Long texts are written as concatenations of short pieces, and the
    thirty-turn list as three lists of ten: the values are the same, and
    the verifier handles short literals far better than long ones. */
module Constants {
  import opened Types
  import opened Text

  /** The conversation the dashboard starts with (`SAMPLE_CONVERSATION`):
      thirty turns about taking up running again, the last one a question
      from the user. */
  function SampleConversation(): (s: seq<Message>)
    ensures |s| == 30
    ensures s[29].role == User
  {
    SampleTurns1To10() + SampleTurns11To20() + SampleTurns21To30()
  }

  /** Turns 1 to 10 of the sample. */
  function SampleTurns1To10(): (s: seq<Message>)
    ensures |s| == 10
  {
    [
      Message("1", User,
        "Hey, I'm "
        + "trying "
        + "to get "
        + "into "
        + "running "
        + "again, "
        + "but it's "
        + "been "
        + "years.",
        "10:00 AM"),
      Message("2", Assistant,
        "That's a "
        + "great "
        + "goal! "
        + "Starting "
        + "slow is "
        + "key. "
        + "Have you "
        + "thought "
        + "about a "
        + "specific "
        + "plan?",
        "10:01 AM"),
      Message("3", User,
        "Not "
        + "really. "
        + "I just "
        + "know I "
        + "hate "
        + "treadmills. "
        + "They "
        + "make me "
        + "feel "
        + "like a "
        + "hamster.",
        "10:02 AM"),
      Message("4", Assistant,
        "Understood, "
        + "outdoor "
        + "running "
        + "it is! "
        + "What "
        + "kind of "
        + "environment "
        + "do you "
        + "have "
        + "nearby?",
        "10:03 AM"),
      Message("5", User,
        "I live "
        + "near a "
        + "big "
        + "park, "
        + "which is "
        + "nice, "
        + "but I'm "
        + "super "
        + "self-conscious "
        + "about "
        + "people "
        + "watching "
        + "me.",
        "10:04 AM"),
      Message("6", Assistant,
        "That's a "
        + "very "
        + "common "
        + "feeling. "
        + "Maybe "
        + "early "
        + "mornings "
        + "would be "
        + "quieter?",
        "10:05 AM"),
      Message("7", User,
        "Ugh, I "
        + "am NOT a "
        + "morning "
        + "person. "
        + "Coffee "
        + "doesn't "
        + "even "
        + "touch my "
        + "soul "
        + "until 9 "
        + "AM.",
        "10:06 AM"),
      Message("8", Assistant,
        "Fair "
        + "enough! "
        + "How "
        + "about "
        + "evenings "
        + "or "
        + "weekends?",
        "10:07 AM"),
      Message("9", User,
        "Weekends "
        + "might "
        + "work. I "
        + "usually "
        + "have "
        + "free "
        + "time on "
        + "Saturday "
        + "afternoons.",
        "10:08 AM"),
      Message("10", User,
        "I bought "
        + "these "
        + "neon "
        + "green "
        + "shoes "
        + "last "
        + "year "
        + "that I "
        + "never "
        + "wore. "
        + "They're "
        + "loud.",
        "10:10 AM")
    ]
  }

  /** How the ids of turns 1 to 10 read. */
  lemma SampleTurns1To10IdReadings()
    ensures NatToString(1) == "1"
    ensures NatToString(2) == "2"
    ensures NatToString(3) == "3"
    ensures NatToString(4) == "4"
    ensures NatToString(5) == "5"
    ensures NatToString(6) == "6"
    ensures NatToString(7) == "7"
    ensures NatToString(8) == "8"
    ensures NatToString(9) == "9"
    ensures NatToString(10) == "10"
  {
  }

  /** How the timestamps of turns 1 to 10 read. */
  lemma SampleTurns1To10ClockReadings()
    ensures ClockMinutes("10:00 AM") == Some(600)
    ensures ClockMinutes("10:01 AM") == Some(601)
    ensures ClockMinutes("10:02 AM") == Some(602)
    ensures ClockMinutes("10:03 AM") == Some(603)
    ensures ClockMinutes("10:04 AM") == Some(604)
    ensures ClockMinutes("10:05 AM") == Some(605)
    ensures ClockMinutes("10:06 AM") == Some(606)
    ensures ClockMinutes("10:07 AM") == Some(607)
    ensures ClockMinutes("10:08 AM") == Some(608)
    ensures ClockMinutes("10:10 AM") == Some(610)
  {
  }

  /** The ids of turns 1 to 10 count up from 1, and their clock
      times increase from 600 to 610 minutes past midnight. */
  lemma SampleTurns1To10Read()
    ensures forall i :: 0 <= i < 10 ==> SampleTurns1To10()[i].id == NatToString(0 + i + 1)
    ensures forall i :: 0 <= i < 10 ==> ClockMinutes(SampleTurns1To10()[i].timestamp).Some?
    ensures forall i :: 0 <= i < 9 ==>
      ClockMinutes(SampleTurns1To10()[i].timestamp).value < ClockMinutes(SampleTurns1To10()[i + 1].timestamp).value
    ensures ClockMinutes(SampleTurns1To10()[0].timestamp) == Some(600)
    ensures ClockMinutes(SampleTurns1To10()[9].timestamp) == Some(610)
  {
    SampleTurns1To10IdReadings();
    SampleTurns1To10ClockReadings();
    var s := SampleTurns1To10();
    assert s[0].id == "1" && s[0].timestamp == "10:00 AM";
    assert s[1].id == "2" && s[1].timestamp == "10:01 AM";
    assert s[2].id == "3" && s[2].timestamp == "10:02 AM";
    assert s[3].id == "4" && s[3].timestamp == "10:03 AM";
    assert s[4].id == "5" && s[4].timestamp == "10:04 AM";
    assert s[5].id == "6" && s[5].timestamp == "10:05 AM";
    assert s[6].id == "7" && s[6].timestamp == "10:06 AM";
    assert s[7].id == "8" && s[7].timestamp == "10:07 AM";
    assert s[8].id == "9" && s[8].timestamp == "10:08 AM";
    assert s[9].id == "10" && s[9].timestamp == "10:10 AM";
    forall i | 0 <= i < 9
      ensures ClockMinutes(s[i].timestamp).value < ClockMinutes(s[i + 1].timestamp).value
    {
      // One empty branch per index: the case split lets each comparison be
      // checked on the two literal timestamps it involves.
      if i == 0 { } else if i == 1 { } else if i == 2 { } else if i == 3 { } else if i == 4 { } else if i == 5 { } else if i == 6 { } else if i == 7 { } else { }
    }
  }

  /** Turns 11 to 20 of the sample. */
  function SampleTurns11To20(): (s: seq<Message>)
    ensures |s| == 10
  {
    [
      Message("11", Assistant,
        "Neon "
        + "green "
        + "sounds "
        + "fun! "
        + "They "
        + "might "
        + "actually "
        + "help "
        + "with "
        + "visibility "
        + "if you "
        + "run at "
        + "dusk.",
        "10:11 AM"),
      Message("12", User,
        "True. "
        + "Honestly, "
        + "I'm just "
        + "scared "
        + "I'll "
        + "fail "
        + "again. I "
        + "tried "
        + "couch-to-5k "
        + "twice "
        + "and "
        + "quit.",
        "10:12 AM"),
      Message("13", Assistant,
        "What "
        + "made you "
        + "quit "
        + "those "
        + "times? "
        + "Was it "
        + "the "
        + "schedule "
        + "or the "
        + "difficulty?",
        "10:13 AM"),
      Message("14", User,
        "Boredom, "
        + "mostly. "
        + "And my "
        + "knees "
        + "hurt. I "
        + "have "
        + "weak "
        + "knees "
        + "from "
        + "high "
        + "school "
        + "soccer.",
        "10:14 AM"),
      Message("15", Assistant,
        "Knee "
        + "pain is "
        + "serious. "
        + "We "
        + "should "
        + "focus on "
        + "low-impact "
        + "or soft "
        + "surfaces. "
        + "Grass or "
        + "dirt "
        + "trails "
        + "in that "
        + "park?",
        "10:15 AM"),
      Message("16", User,
        "Yeah, "
        + "there "
        + "are "
        + "trails. "
        + "I do "
        + "love "
        + "nature. "
        + "Being "
        + "stuck "
        + "inside "
        + "depresses "
        + "me.",
        "10:16 AM"),
      Message("17", User,
        "Also, I "
        + "need "
        + "music. I "
        + "can't "
        + "run in "
        + "silence. "
        + "It "
        + "drives "
        + "me "
        + "crazy.",
        "10:17 AM"),
      Message("18", Assistant,
        "Music is "
        + "a great "
        + "motivator. "
        + "What's "
        + "your "
        + "go-to "
        + "running "
        + "playlist "
        + "genre?",
        "10:18 AM"),
      Message("19", User,
        "90s Hip "
        + "Hop or "
        + "really "
        + "aggressive "
        + "EDM. "
        + "Nothing "
        + "slow.",
        "10:19 AM"),
      Message("20", Assistant,
        "High "
        + "energy! "
        + "Perfect "
        + "for "
        + "keeping "
        + "pace.",
        "10:20 AM")
    ]
  }

  /** How the ids of turns 11 to 20 read. */
  lemma SampleTurns11To20IdReadings()
    ensures NatToString(11) == "11"
    ensures NatToString(12) == "12"
    ensures NatToString(13) == "13"
    ensures NatToString(14) == "14"
    ensures NatToString(15) == "15"
    ensures NatToString(16) == "16"
    ensures NatToString(17) == "17"
    ensures NatToString(18) == "18"
    ensures NatToString(19) == "19"
    ensures NatToString(20) == "20"
  {
  }

  /** How the timestamps of turns 11 to 20 read. */
  lemma SampleTurns11To20ClockReadings()
    ensures ClockMinutes("10:11 AM") == Some(611)
    ensures ClockMinutes("10:12 AM") == Some(612)
    ensures ClockMinutes("10:13 AM") == Some(613)
    ensures ClockMinutes("10:14 AM") == Some(614)
    ensures ClockMinutes("10:15 AM") == Some(615)
    ensures ClockMinutes("10:16 AM") == Some(616)
    ensures ClockMinutes("10:17 AM") == Some(617)
    ensures ClockMinutes("10:18 AM") == Some(618)
    ensures ClockMinutes("10:19 AM") == Some(619)
    ensures ClockMinutes("10:20 AM") == Some(620)
  {
  }

  /** The ids of turns 11 to 20 count up from 11, and their clock
      times increase from 611 to 620 minutes past midnight. */
  lemma SampleTurns11To20Read()
    ensures forall i :: 0 <= i < 10 ==> SampleTurns11To20()[i].id == NatToString(10 + i + 1)
    ensures forall i :: 0 <= i < 10 ==> ClockMinutes(SampleTurns11To20()[i].timestamp).Some?
    ensures forall i :: 0 <= i < 9 ==>
      ClockMinutes(SampleTurns11To20()[i].timestamp).value < ClockMinutes(SampleTurns11To20()[i + 1].timestamp).value
    ensures ClockMinutes(SampleTurns11To20()[0].timestamp) == Some(611)
    ensures ClockMinutes(SampleTurns11To20()[9].timestamp) == Some(620)
  {
    SampleTurns11To20IdReadings();
    SampleTurns11To20ClockReadings();
    var s := SampleTurns11To20();
    assert s[0].id == "11" && s[0].timestamp == "10:11 AM";
    assert s[1].id == "12" && s[1].timestamp == "10:12 AM";
    assert s[2].id == "13" && s[2].timestamp == "10:13 AM";
    assert s[3].id == "14" && s[3].timestamp == "10:14 AM";
    assert s[4].id == "15" && s[4].timestamp == "10:15 AM";
    assert s[5].id == "16" && s[5].timestamp == "10:16 AM";
    assert s[6].id == "17" && s[6].timestamp == "10:17 AM";
    assert s[7].id == "18" && s[7].timestamp == "10:18 AM";
    assert s[8].id == "19" && s[8].timestamp == "10:19 AM";
    assert s[9].id == "20" && s[9].timestamp == "10:20 AM";
    forall i | 0 <= i < 9
      ensures ClockMinutes(s[i].timestamp).value < ClockMinutes(s[i + 1].timestamp).value
    {
      // One empty branch per index: the case split lets each comparison be
      // checked on the two literal timestamps it involves.
      if i == 0 { } else if i == 1 { } else if i == 2 { } else if i == 3 { } else if i == 4 { } else if i == 5 { } else if i == 6 { } else if i == 7 { } else { }
    }
  }

  /** Turns 21 to 30 of the sample. */
  function SampleTurns21To30(): (s: seq<Message>)
    ensures |s| == 10
  {
    [
      Message("21", User,
        "I also "
        + "have a "
        + "dog, a "
        + "Golden "
        + "Retriever "
        + "named "
        + "Buster. "
        + "Can he "
        + "come?",
        "10:21 AM"),
      Message("22", Assistant,
        "Most "
        + "parks "
        + "allow "
        + "dogs on "
        + "leashes. "
        + "Running "
        + "with a "
        + "buddy "
        + "makes it "
        + "less "
        + "boring "
        + "too!",
        "10:22 AM"),
      Message("23", User,
        "He pulls "
        + "a lot "
        + "though. "
        + "Might be "
        + "annoying.",
        "10:23 AM"),
      Message("24", User,
        "Actually, "
        + "thinking "
        + "about "
        + "it, "
        + "maybe I "
        + "should "
        + "just "
        + "walk-run "
        + "first.",
        "10:25 AM"),
      Message("25", Assistant,
        "Walk-run "
        + "intervals "
        + "are "
        + "excellent "
        + "for "
        + "building "
        + "stamina "
        + "without "
        + "hurting "
        + "your "
        + "knees.",
        "10:26 AM"),
      Message("26", User,
        "I'm just "
        + "worried "
        + "I'll get "
        + "discouraged "
        + "if I "
        + "don't "
        + "see "
        + "results "
        + "fast.",
        "10:27 AM"),
      Message("27", User,
        "I tend "
        + "to be "
        + "really "
        + "hard on "
        + "myself "
        + "when I'm "
        + "not "
        + "perfect "
        + "immediately.",
        "10:28 AM"),
      Message("28", Assistant,
        "Perfectionism "
        + "can be a "
        + "hurdle. "
        + "Let's "
        + "aim for "
        + "'consistency' "
        + "instead "
        + "of "
        + "'perfection'.",
        "10:29 AM"),
      Message("29", User,
        "You're "
        + "right. "
        + "Okay, "
        + "I'll try "
        + "this "
        + "Saturday.",
        "10:30 AM"),
      Message("30", User,
        "Wait, "
        + "actually, "
        + "can you "
        + "help me "
        + "plan the "
        + "first "
        + "run? "
        + "Keep in "
        + "mind my "
        + "knees "
        + "and my "
        + "need for "
        + "distraction.",
        "10:31 AM")
    ]
  }

  /** How the ids of turns 21 to 30 read. */
  lemma SampleTurns21To30IdReadings()
    ensures NatToString(21) == "21"
    ensures NatToString(22) == "22"
    ensures NatToString(23) == "23"
    ensures NatToString(24) == "24"
    ensures NatToString(25) == "25"
    ensures NatToString(26) == "26"
    ensures NatToString(27) == "27"
    ensures NatToString(28) == "28"
    ensures NatToString(29) == "29"
    ensures NatToString(30) == "30"
  {
  }

  /** How the timestamps of turns 21 to 30 read. */
  lemma SampleTurns21To30ClockReadings()
    ensures ClockMinutes("10:21 AM") == Some(621)
    ensures ClockMinutes("10:22 AM") == Some(622)
    ensures ClockMinutes("10:23 AM") == Some(623)
    ensures ClockMinutes("10:25 AM") == Some(625)
    ensures ClockMinutes("10:26 AM") == Some(626)
    ensures ClockMinutes("10:27 AM") == Some(627)
    ensures ClockMinutes("10:28 AM") == Some(628)
    ensures ClockMinutes("10:29 AM") == Some(629)
    ensures ClockMinutes("10:30 AM") == Some(630)
    ensures ClockMinutes("10:31 AM") == Some(631)
  {
  }

  /** The ids of turns 21 to 30 count up from 21, and their clock
      times increase from 621 to 631 minutes past midnight. */
  lemma SampleTurns21To30Read()
    ensures forall i :: 0 <= i < 10 ==> SampleTurns21To30()[i].id == NatToString(20 + i + 1)
    ensures forall i :: 0 <= i < 10 ==> ClockMinutes(SampleTurns21To30()[i].timestamp).Some?
    ensures forall i :: 0 <= i < 9 ==>
      ClockMinutes(SampleTurns21To30()[i].timestamp).value < ClockMinutes(SampleTurns21To30()[i + 1].timestamp).value
    ensures ClockMinutes(SampleTurns21To30()[0].timestamp) == Some(621)
    ensures ClockMinutes(SampleTurns21To30()[9].timestamp) == Some(631)
  {
    SampleTurns21To30IdReadings();
    SampleTurns21To30ClockReadings();
    var s := SampleTurns21To30();
    assert s[0].id == "21" && s[0].timestamp == "10:21 AM";
    assert s[1].id == "22" && s[1].timestamp == "10:22 AM";
    assert s[2].id == "23" && s[2].timestamp == "10:23 AM";
    assert s[3].id == "24" && s[3].timestamp == "10:25 AM";
    assert s[4].id == "25" && s[4].timestamp == "10:26 AM";
    assert s[5].id == "26" && s[5].timestamp == "10:27 AM";
    assert s[6].id == "27" && s[6].timestamp == "10:28 AM";
    assert s[7].id == "28" && s[7].timestamp == "10:29 AM";
    assert s[8].id == "29" && s[8].timestamp == "10:30 AM";
    assert s[9].id == "30" && s[9].timestamp == "10:31 AM";
    forall i | 0 <= i < 9
      ensures ClockMinutes(s[i].timestamp).value < ClockMinutes(s[i + 1].timestamp).value
    {
      // One empty branch per index: the case split lets each comparison be
      // checked on the two literal timestamps it involves.
      if i == 0 { } else if i == 1 { } else if i == 2 { } else if i == 3 { } else if i == 4 { } else if i == 5 { } else if i == 6 { } else if i == 7 { } else { }
    }
  }

  /** The instruction text of each persona (`PERSONA_DESCRIPTIONS`). */
  function PersonaDescription(p: PersonaType): (d: string)
    ensures |d| > 0
  {
    match p
    case Standard =>
      "A helpful, neutral, and "
      + "polite AI assistant."
    case Mentor =>
      "A wise, calm, and "
      + "encouraging mentor who "
      + "uses metaphors and "
      + "focuses on long-term "
      + "growth. Speaks slowly "
      + "and thoughtfully."
    case Witty =>
      "A sarcastic, funny, and "
      + "quick-witted best "
      + "friend. Uses slang, "
      + "makes jokes, and keeps "
      + "things lighthearted but "
      + "supportive."
    case Therapist =>
      "A compassionate, "
      + "empathetic therapist. "
      + "Validates feelings, asks "
      + "reflective questions, "
      + "and focuses on emotional "
      + "well-being."
    case Pirate =>
      "A rugged space pirate "
      + "captain. Uses "
      + "nautical/space slang, "
      + "very enthusiastic, "
      + "treats the user like a "
      + "crewmate."
  }

  /** The members of `PersonaType` in declaration order, which is the order
      `Object.values` lists them in. */
  function AllPersonas(): (ps: seq<PersonaType>)
    ensures |ps| == 5
    ensures forall i, j :: 0 <= i < j < |ps| ==> ps[i] != ps[j]
  {
    [Standard, Mentor, Witty, Therapist, Pirate]
  }

  /** Every persona is listed. */
  lemma AllPersonasComplete(p: PersonaType)
    ensures p in AllPersonas()
  {
    match p
    case Standard => assert AllPersonas()[0] == p;
    case Mentor => assert AllPersonas()[1] == p;
    case Witty => assert AllPersonas()[2] == p;
    case Therapist => assert AllPersonas()[3] == p;
    case Pirate => assert AllPersonas()[4] == p;
  }

  // ---------------------------------------------------------------------
  // Reading the sample's ids and timestamps

  /** Minutes since midnight of a 12-hour clock time written `H:MM` or
      `HH:MM`, then a space, then `AM` or `PM`; None for any other text.
      The model applies it to the sample's timestamps only. */
  function ClockMinutes(ts: string): (r: Option<nat>)
    ensures r.Some? ==> r.value < 24 * 60
  {
    var n := |ts|;
    if n != 7 && n != 8 then None
    else if ts[n - 6] != ':' || ts[n - 3] != ' ' || ts[n - 1] != 'M' then None
    else if !IsDigit(ts[0]) || !IsDigit(ts[n - 7]) || !IsDigit(ts[n - 5]) || !IsDigit(ts[n - 4]) then None
    else
      var hour := if n == 8 then DigitValue(ts[0]) * 10 + DigitValue(ts[1]) else DigitValue(ts[0]);
      var minute := DigitValue(ts[n - 5]) * 10 + DigitValue(ts[n - 4]);
      if hour < 1 || 12 < hour || 60 <= minute then None
      else if ts[n - 2] == 'A' then Some(hour % 12 * 60 + minute)
      else if ts[n - 2] == 'P' then Some(hour % 12 * 60 + minute + 720)
      else None
  }

  /** The sample's ids are "1", "2", ..., "30" in list order. */
  lemma SampleIdsCount()
    ensures forall i :: 0 <= i < 30 ==> SampleConversation()[i].id == NatToString(i + 1)
  {
    var a, b, c := SampleTurns1To10(), SampleTurns11To20(), SampleTurns21To30();
    SampleTurns1To10Read();
    SampleTurns11To20Read();
    SampleTurns21To30Read();
    var s := SampleConversation();
    forall i | 0 <= i < 30 ensures s[i].id == NatToString(i + 1) {
      if i < 10 { assert s[i] == a[i]; }
      else if i < 20 { assert s[i] == b[i - 10]; }
      else { assert s[i] == c[i - 20]; }
    }
  }

  /** The sample's ids are non-empty and pairwise distinct. */
  lemma SampleIdsDistinct()
    ensures forall i :: 0 <= i < 30 ==> SampleConversation()[i].id != ""
    ensures forall i, j :: 0 <= i < j < 30 ==> SampleConversation()[i].id != SampleConversation()[j].id
  {
    SampleIdsCount();
    forall i, j | 0 <= i < j < 30
      ensures SampleConversation()[i].id != SampleConversation()[j].id
    {
      NatToStringInjective(i + 1, j + 1);
    }
  }

  /** Every sample timestamp reads as a clock time, the first is 10:00 AM,
      the last 10:31 AM, and each is later than the one before it. */
  lemma SampleClockSteps()
    ensures forall i :: 0 <= i < 30 ==> ClockMinutes(SampleConversation()[i].timestamp).Some?
    ensures ClockMinutes(SampleConversation()[0].timestamp) == Some(10 * 60)
    ensures ClockMinutes(SampleConversation()[29].timestamp) == Some(10 * 60 + 31)
    ensures forall i :: 0 <= i < 29 ==>
      ClockMinutes(SampleConversation()[i].timestamp).value < ClockMinutes(SampleConversation()[i + 1].timestamp).value
  {
    var a, b, c := SampleTurns1To10(), SampleTurns11To20(), SampleTurns21To30();
    SampleTurns1To10Read();
    SampleTurns11To20Read();
    SampleTurns21To30Read();
    var s := SampleConversation();
    forall i | 0 <= i < 30 ensures s[i] == if i < 10 then a[i] else if i < 20 then b[i - 10] else c[i - 20] {
    }
  }

  /** The sample's clock times strictly increase along the list. */
  lemma {:induction false} SampleClockIncreasing(i: nat, j: nat)
    requires i < j < 30
    ensures ClockMinutes(SampleConversation()[i].timestamp).Some?
    ensures ClockMinutes(SampleConversation()[j].timestamp).Some?
    ensures ClockMinutes(SampleConversation()[i].timestamp).value < ClockMinutes(SampleConversation()[j].timestamp).value
    decreases j - i
  {
    SampleClockSteps();
    if i + 1 < j {
      SampleClockIncreasing(i + 1, j);
    }
  }
}
