/**
 * The application object: the fields `DiarioMoodApp` keeps, the three
 * browser-storage keys it writes, and the handlers that change them. The
 * clock, the text typed into the two diary fields and the weekday names are
 * parameters; what is drawn on screen is left to the caller, except which of
 * the two screens (PIN gate or diary) is showing.
 */
module App {
  import opened Wrappers
  import opened Moods
  import opened Text
  import opened Entries
  import opened MoodChart
  import opened DailyQuestion
  import opened Themes
  import opened Keypad

  datatype Screen = LoginScreen | MainScreen

  /** What a storage key meant to hold JSON gives back: nothing (no key, or
      an empty string), text that does not parse, or a parsed value. */
  datatype Stored<T> = Missing | Malformed | Parsed(value: T)

  /** A string JavaScript treats as true: present and not empty. */
  predicate Truthy(s: Option<string>) {
    s.Some? && s.value != []
  }

  /** The shortest PIN the setup accepts. */
  const MinPinLength: nat := 4

  class DiarioMoodApp {
    var currentUser: Option<string>
    var entries: seq<Entry>
    var currentTheme: string
    var currentMood: Option<Mood>
    var currentMinimalMood: Option<Mood>
    /** The text of the daily-question element, copied into full entries. */
    var questionText: string
    /** The PIN field. */
    var passwordInput: string
    var screen: Screen
    /** Browser storage: the keys 'diario_user', 'diario_entries' and
        'diario_theme'. */
    var storedPin: Option<string>
    var storedEntries: Stored<seq<Entry>>
    var storedTheme: Option<string>

    /** The PIN gate's invariant: the session's user is the stored PIN (it
        is read from storage at start-up, and setup, login and logout keep
        the two together), and the diary screen shows only while that PIN
        is a non-empty string. */
    ghost predicate Valid()
      reads this
    {
      currentUser == storedPin && (screen == MainScreen ==> Truthy(currentUser))
    }

    /** `new DiarioMoodApp()`: `loadData`, `checkAuth` and
        `setDailyQuestion`, given what storage holds and today's date. When
        the stored entries do not parse, the load stops there: the entries
        stay empty and the stored theme is not read. */
    constructor (pin: Option<string>, savedEntries: Stored<seq<Entry>>,
                 savedTheme: Option<string>, today: Date, msOfDay: int)
      requires ValidDate(today) && 0 <= msOfDay < MsPerDay
      ensures Valid()
      ensures currentUser == pin && storedPin == pin
      ensures storedEntries == savedEntries && storedTheme == savedTheme
      ensures entries == if savedEntries.Parsed? then savedEntries.value else []
      ensures currentTheme ==
        if savedEntries.Malformed? || !Truthy(savedTheme) then DefaultTheme else savedTheme.value
      ensures screen == if Truthy(pin) then MainScreen else LoginScreen
      ensures questionText == TodaysQuestion(today, msOfDay)
      ensures currentMood == None && currentMinimalMood == None && passwordInput == []
    {
      currentUser := pin;
      storedPin := pin;
      storedEntries := savedEntries;
      storedTheme := savedTheme;
      currentMood := None;
      currentMinimalMood := None;
      passwordInput := [];
      entries := [];
      currentTheme := DefaultTheme;
      match savedEntries {
        case Malformed =>
        case Missing =>
          currentTheme := if Truthy(savedTheme) then savedTheme.value else DefaultTheme;
        case Parsed(es) =>
          entries := es;
          currentTheme := if Truthy(savedTheme) then savedTheme.value else DefaultTheme;
      }
      screen := if Truthy(pin) then MainScreen else LoginScreen;
      questionText := TodaysQuestion(today, msOfDay);
    }

    /** `saveData`: storage receives the entries and the theme as they are
        in memory. */
    method SaveData()
      modifies this`storedEntries, this`storedTheme
      ensures storedEntries == Parsed(entries) && storedTheme == Some(currentTheme)
    {
      storedEntries := Parsed(entries);
      storedTheme := Some(currentTheme);
    }

    /** `setupAuth`: a PIN of at least four characters is stored and opens
        the diary; a shorter one changes nothing. */
    method SetupAuth()
      requires Valid()
      modifies this`storedPin, this`currentUser, this`screen
      ensures Valid()
      ensures |passwordInput| >= MinPinLength ==>
        storedPin == Some(passwordInput) && currentUser == storedPin && screen == MainScreen
      ensures |passwordInput| < MinPinLength ==>
        storedPin == old(storedPin) && currentUser == old(currentUser) && screen == old(screen)
    {
      if |passwordInput| >= MinPinLength {
        storedPin := Some(passwordInput);
        currentUser := Some(passwordInput);
        screen := MainScreen;
      }
    }

    /** `login`: with no stored PIN (or an empty one) it is a setup; a PIN
        equal to the stored one opens the diary; a different one leaves
        the session as it was and empties the PIN field. */
    method Login()
      requires Valid()
      modifies this`storedPin, this`currentUser, this`screen, this`passwordInput
      ensures Valid()
      ensures !Truthy(old(storedPin)) ==> passwordInput == old(passwordInput)
      ensures !Truthy(old(storedPin)) && |passwordInput| >= MinPinLength ==>
        storedPin == Some(passwordInput) && screen == MainScreen
      ensures !Truthy(old(storedPin)) && |passwordInput| < MinPinLength ==>
        storedPin == old(storedPin) && screen == old(screen)
      ensures Truthy(old(storedPin)) ==> storedPin == old(storedPin)
      ensures Truthy(old(storedPin)) && old(passwordInput) == old(storedPin).value ==>
        currentUser == old(storedPin) && screen == MainScreen && passwordInput == old(passwordInput)
      ensures Truthy(old(storedPin)) && old(passwordInput) != old(storedPin).value ==>
        currentUser == old(currentUser) && screen == old(screen) && passwordInput == []
    {
      var storedPassword := storedPin;
      if !Truthy(storedPassword) {
        SetupAuth();
        return;
      }
      if passwordInput == storedPassword.value {
        currentUser := Some(passwordInput);
        screen := MainScreen;
      } else {
        passwordInput := [];
      }
    }

    /** `logout`: ends the session and also deletes the stored PIN, so the
        next visit starts with a new setup. */
    method Logout()
      modifies this`storedPin, this`currentUser, this`screen, this`passwordInput
      ensures Valid()
      ensures currentUser == None && storedPin == None
      ensures screen == LoginScreen && passwordInput == []
    {
      currentUser := None;
      storedPin := None;
      screen := LoginScreen;
      passwordInput := [];
    }

    /** The "change PIN" button: a logout once the user confirms. */
    method ChangePin(confirmed: bool)
      requires Valid()
      modifies this`storedPin, this`currentUser, this`screen, this`passwordInput
      ensures Valid()
      ensures confirmed ==> currentUser == None && storedPin == None && screen == LoginScreen && passwordInput == []
      ensures !confirmed ==>
        storedPin == old(storedPin) && currentUser == old(currentUser) &&
        screen == old(screen) && passwordInput == old(passwordInput)
    {
      if confirmed {
        Logout();
      }
    }

    /** A click on a keypad button. */
    method PressKeypad(b: Button)
      modifies this`passwordInput
      ensures passwordInput == Press(old(passwordInput), b)
    {
      passwordInput := Press(passwordInput, b);
    }

    /** `selectMood`: the mood picked on the diary tab. */
    method SelectMood(m: Mood)
      modifies this`currentMood
      ensures currentMood == Some(m)
    {
      currentMood := Some(m);
    }

    /** `selectMinimalMood`: the mood picked on the quick-entry tab. */
    method SelectMinimalMood(m: Mood)
      modifies this`currentMinimalMood
      ensures currentMinimalMood == Some(m)
    {
      currentMinimalMood := Some(m);
    }

    /** `saveEntry`: a draft of whitespace only with no mood is refused and
        nothing changes; otherwise the full entry `Compose` builds, carrying
        the question on display, goes to the front, the entries are stored,
        and the mood is cleared. `now` is `Date.now()` and `today` its
        calendar day. */
    method SaveEntry(diaryText: string, now: int, today: int) returns (saved: bool)
      modifies this`entries, this`currentMood, this`storedEntries, this`storedTheme
      ensures saved <==> !(WhitespaceBetween(diaryText, 0, |diaryText|) && old(currentMood).None?)
      ensures saved <==> Compose(now, today, diaryText, old(currentMood), Full, old(questionText)).Some?
      ensures saved ==>
        entries == [Compose(now, today, diaryText, old(currentMood), Full, old(questionText)).value] + old(entries) &&
        currentMood == None && storedEntries == Parsed(entries) && storedTheme == Some(old(currentTheme))
      ensures !saved ==>
        entries == old(entries) && currentMood == old(currentMood) &&
        storedEntries == old(storedEntries) && storedTheme == old(storedTheme)
    {
      var entry := Compose(now, today, diaryText, currentMood, Full, questionText);
      if entry.None? {
        return false;
      }
      entries := [entry.value] + entries;
      SaveData();
      currentMood := None;
      saved := true;
    }

    /** `saveMinimalEntry`: as `saveEntry`, with the quick-entry mood, no
        question and the minimal kind. */
    method SaveMinimalEntry(minimalText: string, now: int, today: int) returns (saved: bool)
      modifies this`entries, this`currentMinimalMood, this`storedEntries, this`storedTheme
      ensures saved <==> !(WhitespaceBetween(minimalText, 0, |minimalText|) && old(currentMinimalMood).None?)
      ensures saved <==> Compose(now, today, minimalText, old(currentMinimalMood), Minimal, old(questionText)).Some?
      ensures saved ==>
        entries == [Compose(now, today, minimalText, old(currentMinimalMood), Minimal, old(questionText)).value] + old(entries) &&
        currentMinimalMood == None && storedEntries == Parsed(entries) && storedTheme == Some(old(currentTheme))
      ensures !saved ==>
        entries == old(entries) && currentMinimalMood == old(currentMinimalMood) &&
        storedEntries == old(storedEntries) && storedTheme == old(storedTheme)
    {
      var entry := Compose(now, today, minimalText, currentMinimalMood, Minimal, questionText);
      if entry.None? {
        return false;
      }
      entries := [entry.value] + entries;
      SaveData();
      currentMinimalMood := None;
      saved := true;
    }

    /** `setDailyQuestion`. */
    method SetDailyQuestion(today: Date, msOfDay: int)
      requires ValidDate(today) && 0 <= msOfDay < MsPerDay
      modifies this`questionText
      ensures questionText == TodaysQuestion(today, msOfDay)
    {
      questionText := TodaysQuestion(today, msOfDay);
    }

    /** `setTheme`: any theme name is taken as it is, and stored. */
    method SetTheme(theme: string)
      modifies this`currentTheme, this`storedEntries, this`storedTheme
      ensures currentTheme == theme
      ensures storedEntries == Parsed(entries) && storedTheme == Some(theme)
    {
      currentTheme := theme;
      SaveData();
    }

    /** `cycleTheme`: the next theme of the list becomes the current one. */
    method CycleTheme()
      modifies this`currentTheme, this`storedEntries, this`storedTheme
      ensures currentTheme == NextTheme(old(currentTheme)) && currentTheme in ThemeList
      ensures storedEntries == Parsed(entries) && storedTheme == Some(currentTheme)
    {
      SetTheme(NextTheme(currentTheme));
    }

    /** `getLast7DaysData`: one label and one value per calendar day from
        `today - 6` (first) to `today` (last). `dayName` names a day as the
        chart's x axis does. */
    method Last7DaysData(today: int, dayName: int -> string) returns (labels: seq<string>, moods: seq<Option<int>>)
      ensures |labels| == 7 && |moods| == 7
      ensures forall k :: 0 <= k < 7 ==> labels[k] == dayName(today - 6 + k)
      ensures forall k :: 0 <= k < 7 ==> moods[k] == DayMood(entries, today - 6 + k)
    {
      labels, moods := [], [];
      var es := entries;
      var i := 6;
      while i >= 0
        invariant -1 <= i <= 6
        invariant |labels| == 6 - i && |moods| == 6 - i
        invariant forall k :: 0 <= k < |labels| ==> labels[k] == dayName(today - 6 + k)
        invariant forall k :: 0 <= k < |moods| ==> moods[k] == DayMood(es, today - 6 + k)
      {
        var date := today - i;
        assert date == today - 6 + |moods|;
        labels := labels + [dayName(date)];
        var dayEntries := EntriesOn(es, date);
        if |dayEntries| > 0 {
          var validMoods := MoodsOf(dayEntries);
          if |validMoods| > 0 {
            moods := moods + [Some(RoundedMean(validMoods))];
          } else {
            moods := moods + [None];
          }
        } else {
          moods := moods + [None];
        }
        i := i - 1;
      }
    }
  }

  /** Every day of the chart is empty or a mood, and so is the week's
      average built from them. */
  lemma ChartValuesAreMoods(entries: seq<Entry>, moods: seq<Option<int>>, today: int)
    requires |moods| == 7
    requires forall k :: 0 <= k < 7 ==> moods[k] == DayMood(entries, today - 6 + k)
    ensures forall k :: 0 <= k < 7 && moods[k].Some? ==> 1 <= moods[k].value <= 5
    ensures WeekStats(moods).Summary? ==> 1 <= WeekStats(moods).average <= 5
  {
    WeekAverageIsMood(moods);
  }
}
