/**
 The page-side bookkeeping around the scene: the credit balance, the spin
 button's guard and debit, crediting a payout, the window of the last ten
 spins, the zero-credit top-up, and the session clock with its break
 reminder. Each React state update is one step on an immutable record.
 */
module Console {
  import opened Options
  import opened Symbols

  /** Credits the page starts with. */
  const StartingCredits: real := 1000.0
  /** The bet selected at mount, which the `spin-complete` listener keeps
      using because it is registered once. */
  const InitialBet: real := 10.0
  const BetChoices: seq<real> := [10.0, 25.0, 50.0, 100.0]
  const HistoryLimit: nat := 10
  const WelfareCredits: real := 10000.0
  /** Seconds between break reminders. */
  const ReminderPeriod: nat := 1800

  datatype Verdict = Win | Loss

  datatype Entry = Entry(result: Verdict, amount: real)

  datatype Page = Page(
    credits: real,
    isPlaying: bool,
    bet: real,
    history: seq<Entry>,
    sessionTime: nat,
    breakReminder: bool)

  const Mounted: Page := Page(StartingCredits, false, InitialBet, [], 0, false)

  /** The page after a spin-button press, and the bet sent to the scene if
      the press was accepted. */
  datatype Press = Press(page: Page, startSpin: Option<real>)

  /** `handleSpin`: refused while a spin runs or when the balance does not
      cover the bet; otherwise the bet is debited and sent to the scene. */
  function HandleSpin(p: Page): (r: Press)
    ensures r.startSpin.None? <==> p.isPlaying || p.credits < p.bet
    ensures r.startSpin.None? ==> r.page == p
    ensures r.startSpin.Some? ==>
      && r.startSpin.value == p.bet
      && r.page == p.(credits := p.credits - p.bet)
      && r.page.credits >= 0.0
  {
    if p.isPlaying || p.credits < p.bet then Press(p, None)
    else Press(p.(credits := p.credits - p.bet), Some(p.bet))
  }

  /** A bet button: disabled while a spin runs. */
  function SelectBet(p: Page, amount: real): (r: Page)
    requires amount in BetChoices
    ensures r.bet == (if p.isPlaying then p.bet else amount)
    ensures r.(bet := p.bet) == p
  {
    if p.isPlaying then p else p.(bet := amount)
  }

  /** The `spin-start` listener. */
  function OnSpinStart(p: Page): (r: Page)
    ensures r.isPlaying && r.(isPlaying := p.isPlaying) == p
  {
    p.(isPlaying := true)
  }

  function Abs(x: real): real
  {
    if x < 0.0 then -x else x
  }

  /** The history entry of a spin that paid `win`, netted against the bet
      the listener captured at mount. */
  function EntryFor(win: real): (e: Entry)
    ensures e.result == Win <==> win - InitialBet > 0.0
    ensures e.amount >= 0.0
    ensures e.result == Win ==> win == InitialBet + e.amount
    ensures e.result == Loss ==> win == InitialBet - e.amount
  {
    var net := win - InitialBet;
    Entry(if net > 0.0 then Win else Loss, Abs(net))
  }

  /** The last ten elements of `s`, or all of them when fewer. */
  function Window(s: seq<Entry>): (w: seq<Entry>)
    ensures |w| == if |s| <= HistoryLimit then |s| else HistoryLimit
    ensures w == s[|s| - |w|..]
  {
    if |s| <= HistoryLimit then s else s[|s| - HistoryLimit..]
  }

  /** Append an entry and keep only the ten most recent. */
  function Record(history: seq<Entry>, e: Entry): (r: seq<Entry>)
    ensures |r| == if |history| + 1 <= HistoryLimit then |history| + 1 else HistoryLimit
    ensures r[|r| - 1] == e
    ensures r == (history + [e])[|history| + 1 - |r|..]
  {
    Window(history + [e])
  }

  /** The `spin-complete` listener: the spin is over, the history gains an
      entry, and a positive payout is credited. */
  function OnSpinComplete(p: Page, win: real): (r: Page)
    ensures !r.isPlaying
    ensures r.credits == if win > 0.0 then p.credits + win else p.credits
    ensures r.history == Record(p.history, EntryFor(win))
    ensures r.bet == p.bet && r.sessionTime == p.sessionTime && r.breakReminder == p.breakReminder
  {
    p.(isPlaying := false,
       history := Record(p.history, EntryFor(win)),
       credits := if win > 0.0 then p.credits + win else p.credits)
  }

  /** The safety-net effect: an empty balance between spins is topped up. */
  function SafetyNet(p: Page): (r: Page)
    ensures p.credits <= 0.0 && !p.isPlaying ==> r == p.(credits := WelfareCredits)
    ensures !(p.credits <= 0.0 && !p.isPlaying) ==> r == p
    ensures !r.isPlaying ==> r.credits > 0.0
  {
    if p.credits <= 0.0 && !p.isPlaying then p.(credits := WelfareCredits) else p
  }

  /** One second of the session timer: the reminder is raised when the new
      count is a multiple of thirty minutes, and otherwise left as it is. */
  function Tick(p: Page): (r: Page)
    ensures r.sessionTime == p.sessionTime + 1
    ensures r.breakReminder <==> p.breakReminder || (p.sessionTime + 1) % ReminderPeriod == 0
    ensures r.(sessionTime := p.sessionTime, breakReminder := p.breakReminder) == p
  {
    var t := p.sessionTime + 1;
    p.(sessionTime := t, breakReminder := p.breakReminder || t % ReminderPeriod == 0)
  }

  /** The reminder's dismiss button. */
  function DismissReminder(p: Page): (r: Page)
    ensures !r.breakReminder && r.(breakReminder := p.breakReminder) == p
  {
    p.(breakReminder := false)
  }

  /** `formatTime`: whole hours, and whole minutes within the hour. */
  function FormatTime(seconds: nat): (hm: (nat, nat))
    ensures hm.1 < 60
    ensures hm.0 * 3600 + hm.1 * 60 <= seconds < hm.0 * 3600 + hm.1 * 60 + 60
  {
    (seconds / 3600, (seconds % 3600) / 60)
  }

  /** The history after a sequence of payouts. */
  function RecordAll(history: seq<Entry>, wins: seq<real>): seq<Entry>
  {
    if |wins| == 0 then history
    else Record(RecordAll(history, wins[..|wins| - 1]), EntryFor(wins[|wins| - 1]))
  }

  function Entries(wins: seq<real>): (es: seq<Entry>)
    ensures |es| == |wins|
    ensures forall i :: 0 <= i < |wins| ==> es[i] == EntryFor(wins[i])
  {
    seq(|wins|, i requires 0 <= i < |wins| => EntryFor(wins[i]))
  }

  /** The history always holds the last (at most ten) entries of everything
      recorded, oldest first. */
  lemma {:induction false} HistoryIsLastTen(history: seq<Entry>, wins: seq<real>)
    requires |history| <= HistoryLimit
    ensures RecordAll(history, wins) == Window(history + Entries(wins))
  {
    if |wins| > 0 {
      var front := wins[..|wins| - 1];
      var e := EntryFor(wins[|wins| - 1]);
      HistoryIsLastTen(history, front);
      EntriesSnoc(wins);
      assert history + Entries(wins) == (history + Entries(front)) + [e];
      WindowOfWindow(history + Entries(front), e);
    }
  }

  lemma EntriesSnoc(wins: seq<real>)
    requires |wins| > 0
    ensures Entries(wins) == Entries(wins[..|wins| - 1]) + [EntryFor(wins[|wins| - 1])]
  {
  }

  /** Keeping a window before appending loses nothing the window after
      appending would keep. */
  lemma WindowOfWindow(s: seq<Entry>, e: Entry)
    ensures Window(Window(s) + [e]) == Window(s + [e])
  {
    var w := Window(s);
    if |s| > HistoryLimit {
      assert w + [e] == (s + [e])[|s| - HistoryLimit..];
    }
  }

  /** The reminder is up after `n` seconds from mount, with no dismissal,
      exactly when at least thirty minutes have passed. */
  lemma {:induction false} ReminderAfterThirtyMinutes(n: nat)
    ensures Ticks(Mounted, n).breakReminder <==> n >= ReminderPeriod
    ensures Ticks(Mounted, n).sessionTime == n
  {
    if n > 0 {
      ReminderAfterThirtyMinutes(n - 1);
      var prev := Ticks(Mounted, n - 1);
      assert prev.sessionTime == n - 1;
      var r := Ticks(Mounted, n);
      assert r == Tick(prev);
      assert r.breakReminder == (prev.breakReminder || n % ReminderPeriod == 0);
      if n < ReminderPeriod {
        assert n % ReminderPeriod != 0;
      } else if n == ReminderPeriod {
        assert n % ReminderPeriod == 0;
      } else {
        assert prev.breakReminder;
      }
    }
  }

  function Ticks(p: Page, n: nat): Page
  {
    if n == 0 then p else Tick(Ticks(p, n - 1))
  }
}
