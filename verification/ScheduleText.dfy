/** Configured times between the validator, which accepts them, and the activator, which has to read them. */
module ScheduleText {
  import opened Basics
  import opened ConfigText
  import opened ConfigRules
  import opened QuotaActivation

  predicate Unsigned(s: string) {
    '+' !in s && '-' !in s
  }

  lemma TwoDigitText(p: string)
    requires |p| == 2 && Atoi(p).Some?
    ensures Unsigned(p) <==> IsDigit(p[0])
    ensures IsDigit(p[1])
    ensures Unsigned(p) ==> Atoi(p).value == 10 * DigitValue(p[0]) + DigitValue(p[1])
  {
    AtoiCharacters(p);
    assert p[0] in p && p[1] in p;
    assert p[1..][0] == p[1];
    assert p[..1][..0] == "" && p[..1][0] == p[0];
    if IsDigit(p[0]) {
      assert Number(p[..1]) == DigitValue(p[0]);
      assert Number(p) == Number(p[..1]) * 10 + DigitValue(p[1]);
    }
  }

  lemma Recut(a: string, b: string)
    requires |a| == 2 && |b| == 2
    ensures var s := a + [':'] + b; |s| == 5 && s[2] == ':' && s[..2] == a && s[3..] == b
  {
  }

  lemma JoinedPair(parts: seq<string>)
    requires |parts| == 2
    ensures Join(parts, ':') == parts[0] + [':'] + parts[1] && parts == [parts[0], parts[1]]
  {
    assert parts[1..] == [parts[1]];
  }

  /** An accepted clock text is two characters, a colon and two characters. */
  lemma AcceptedShape(s: string)
    requires ClockOk(s)
    ensures |s| == 5 && s[2] == ':' && Split(s, ':') == [s[..2], s[3..]]
  {
    var parts := Split(s, ':');
    JoinOfSplit(s, ':');
    JoinedPair(parts);
    Recut(parts[0], parts[1]);
  }

  /** The activator reads an accepted text exactly when it holds no sign, and then both read the same time. */
  lemma AcceptedReadsIff(s: string)
    requires ClockOk(s)
    ensures ParseClock(s).Some? <==> Unsigned(s)
    ensures Unsigned(s) ==>
              ParseClock(s).value == 60 * Atoi(Split(s, ':')[0]).value + Atoi(Split(s, ':')[1]).value
  {
    AcceptedShape(s);
    var h, m := s[..2], s[3..];
    TwoDigitText(h);
    TwoDigitText(m);
    assert s == h + [':'] + m;
    assert Unsigned(s) <==> Unsigned(h) && Unsigned(m);
    assert s[2..][0] == ':' && s[2..][1] == m[0] && s[2..][2] == m[1];
  }

  lemma StrictIsRead(s: string)
    ensures StrictClock(s) <==> ClockOk(s) && ParseClock(s).Some?
  {
    if ClockOk(s) {
      AcceptedReadsIff(s);
      assert Unsigned(s) <==> forall i :: 0 <= i < |s| ==> s[i] != '+' && s[i] != '-';
    }
  }

  /** Some heartbeat of an idle activator launches a cycle for the entry. */
  ghost predicate EverDue(s: Schedule) {
    exists now: Time :: Launches(s, now)
  }

  predicate Launches(s: Schedule, now: Time) {
    Consider(Engine(false, None, {}), now, s).started.Some?
  }

  /** A time the validator accepts ever becomes due exactly when it holds no sign character. */
  lemma AcceptedTimeFiresIff(text: string)
    requires ClockOk(Trim(text))
    ensures EverDue(ScheduleOf(text)) <==> Unsigned(text)
  {
    AcceptedReadsIff(Trim(text));
    SignsSurviveTrim(text);
    if Unsigned(text) {
      ClockLaunches(ScheduleOf(text).minute);
    } else {
      assert ScheduleOf(text) == Unparseable;
    }
  }

  /** Within two minutes of that time of some day. */
  ghost predicate JustAfter(now: Time, minute: int) {
    exists slot: Slot :: InGrace(now, minute, slot)
  }

  predicate InGrace(now: Time, minute: int, slot: Slot) {
    slot % 1440 == minute && 0 <= now - slot * (60 * SECOND) <= 120 * SECOND
  }

  lemma ClockLaunchesIff(minute: nat, now: Time)
    requires minute < 1440
    ensures Launches(Clock(minute), now) <==> JustAfter(now, minute)
  {
    ConsiderStarts(Engine(false, None, {}), now, Clock(minute));
    forall slot: Slot ensures CanStart(now, {}, Clock(minute), slot) <==> InGrace(now, minute, slot) {
    }
  }

  /** And then it is due in the two minutes from that time on, every day, and at no other instant. */
  lemma AcceptedTimeFiresAt(text: string, now: Time)
    requires ClockOk(Trim(text))
    ensures var parts := Split(Trim(text), ':');
            Launches(ScheduleOf(text), now)
            <==> Unsigned(text) && JustAfter(now, 60 * Atoi(parts[0]).value + Atoi(parts[1]).value)
  {
    AcceptedReadsIff(Trim(text));
    SignsSurviveTrim(text);
    if Unsigned(text) {
      ClockLaunchesIff(ScheduleOf(text).minute, now);
    }
  }

  lemma SignsSurviveTrim(text: string)
    ensures Unsigned(Trim(text)) <==> Unsigned(text)
  {
    TrimIsTight(text);
    if '+' in text {
      TrimKeeps(text, '+');
    }
    if '-' in text {
      TrimKeeps(text, '-');
    }
  }

  lemma ClockLaunches(minute: nat)
    requires minute < MINUTES_PER_DAY
    ensures EverDue(Clock(minute))
  {
    var now := minute * MINUTE;
    LatestDueIsLatest(now, minute);
    assert Launches(Clock(minute), now);
  }

  lemma SignedTimeAccepted()
    ensures ClockOk("+9:05")
  {
    var h, m := "+9", "05";
    SplitFirst(h, ':', m);
    SplitPlain(m, ':');
    assert h + [':'] + m == "+9:05";
    assert h[1..] == "9" && "9"[..0] == "" && m[..1] == "0" && "0"[..0] == "";
    assert Atoi(h) == Some(9) && Atoi(m) == Some(5);
  }

  /** Such a time: it passes every rule for schedules and never fires. */
  lemma SignedTimeNeverFires()
    ensures SchedulesOk(["+9:05"]) && !EverDue(ScheduleOf("+9:05"))
  {
    SignedTimeAccepted();
    TrimTight("+9:05");
    AcceptedTimeFiresIff("+9:05");
    assert "+9:05"[0] == '+';
  }
}
