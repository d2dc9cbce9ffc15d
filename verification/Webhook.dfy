/** Where an SMS enters the pipeline (app/modules/order/service.py): the numbers in its text,
    and the transaction that stores it together with its outbox row. */
module Webhook {
  import opened Prelude
  import opened Payload
  import O = Outbox
  import L = Pipeline

  // ---------- numbers in the text ----------

  // The zeros of the scripts that are read: ASCII, Persian, Arabic-Indic.
  datatype Script = Ascii | Persian | ArabicIndic

  function Zero(script: Script): char {
    match script
    case Ascii => '0'
    case Persian => '\U{06F0}'
    case ArabicIndic => '\U{0660}'
  }

  function Digit(script: Script, d: nat): char
    requires d < 10
  {
    Zero(script) + d as char
  }

  /** str.translate with the table of Persian digits. */
  function ToEnglish(text: string): string {
    seq(|text|, i requires 0 <= i < |text| =>
      if Digit(Persian, 0) <= text[i] <= Digit(Persian, 9) then '0' + (text[i] - Zero(Persian)) else text[i])
  }

  /** str.replace(',', ''). */
  function WithoutCommas(text: string): string {
    if text == "" then ""
    else WithoutCommas(text[..|text| - 1]) + if text[|text| - 1] == ',' then "" else [text[|text| - 1]]
  }

  /** int() takes the decimal digits of any script. */
  function ValueOf(c: char): (v: Option<nat>)
    ensures v.Some? ==> v.value < 10
  {
    if Digit(Ascii, 0) <= c <= Digit(Ascii, 9) then Some((c - Zero(Ascii)) as nat)
    else if Digit(ArabicIndic, 0) <= c <= Digit(ArabicIndic, 9) then Some((c - Zero(ArabicIndic)) as nat)
    else None
  }

  /** int() of a text without signs, spaces and underscores; None is the ValueError. */
  function IntOf(text: string): Option<nat> {
    if text == "" then None
    else
      var last := ValueOf(text[|text| - 1]);
      if last.None? || |text| == 1 then last
      else
        var before := IntOf(text[..|text| - 1]);
        if before.None? then None else Some(10 * before.value + last.value)
  }

  function NumberOf(text: string): Option<nat> {
    IntOf(WithoutCommas(ToEnglish(text)))
  }

  /** How a bank prints n: in one script, a comma before every third digit from the right;
      `place` counts the digits already printed further right. */
  function Printed(n: nat, script: Script, place: nat): string {
    (if n < 10 then "" else Printed(n / 10, script, place + 1))
    + [Digit(script, n % 10)] + if place > 0 && place % 3 == 0 then "," else ""
  }

  // The digits alone, as they are after translation.
  function Plain(n: nat, script: Script): string {
    (if n < 10 then "" else Plain(n / 10, script)) + [Digit(if script.Persian? then Ascii else script, n % 10)]
  }

  lemma TranslateSum(a: string, b: string)
    ensures ToEnglish(a + b) == ToEnglish(a) + ToEnglish(b)
  {
  }

  lemma {:induction false} CommasSum(a: string, b: string)
    ensures WithoutCommas(a + b) == WithoutCommas(a) + WithoutCommas(b)
  {
    if b == "" {
      assert a + b == a;
    } else {
      CommasSum(a, b[..|b| - 1]);
      assert (a + b)[..|a + b| - 1] == a + b[..|b| - 1];
    }
  }

  lemma OneDigit(script: Script, d: nat)
    requires d < 10
    ensures WithoutCommas(ToEnglish([Digit(script, d)])) == [Digit(if script.Persian? then Ascii else script, d)]
    ensures WithoutCommas(ToEnglish(",")) == ""
  {
    assert ToEnglish([Digit(script, d)]) == [Digit(if script.Persian? then Ascii else script, d)];
    assert ToEnglish(",") == ",";
  }

  lemma {:induction false} PrintedIsPlain(n: nat, script: Script, place: nat)
    ensures WithoutCommas(ToEnglish(Printed(n, script, place))) == Plain(n, script)
  {
    var front := if n < 10 then "" else Printed(n / 10, script, place + 1);
    var digit := [Digit(script, n % 10)];
    var comma := if place > 0 && place % 3 == 0 then "," else "";
    OneDigit(script, n % 10);
    TranslateSum(front + digit, comma);
    TranslateSum(front, digit);
    CommasSum(ToEnglish(front) + ToEnglish(digit), ToEnglish(comma));
    CommasSum(ToEnglish(front), ToEnglish(digit));
    if n >= 10 {
      PrintedIsPlain(n / 10, script, place + 1);
    }
  }

  lemma {:induction false} PlainIsRead(n: nat, script: Script)
    ensures IntOf(Plain(n, script)) == Some(n)
  {
    var text := Plain(n, script);
    assert ValueOf(text[|text| - 1]) == Some(n % 10);
    if n >= 10 {
      PlainIsRead(n / 10, script);
      assert text[..|text| - 1] == Plain(n / 10, script);
      assert |Plain(n / 10, script)| > 0;
    }
  }

  /** Whatever the script and the grouping, the number that was printed is the number read. */
  lemma NumbersAreRead(n: nat, script: Script)
    ensures NumberOf(Printed(n, script, 0)) == Some(n)
  {
    PrintedIsPlain(n, script, 0);
    PlainIsRead(n, script);
  }

  // ---------- the transaction ----------

  // What the parser hands over; the service checks every field again.
  datatype SmsData = SmsData(
    traceId: string, amount: Option<nat>, inventory: Option<nat>, date: Option<string>, time: Option<string>,
    payload: Option<string>)

  datatype Fault = NoFault | DbFails | CommitFails(applied: bool)

  datatype Outcome = Accepted(tx: nat) | InvalidSms | DuplicateSms | Failed

  predicate Complete(d: SmsData) {
    d.amount.Some? && d.inventory.Some? && d.date.Some? && d.time.Some? && d.payload.Some?
  }

  function SmsOf(d: SmsData): L.Sms
    requires Complete(d)
  {
    L.Sms(d.amount.value, d.inventory.value, d.date.value, d.time.value)
  }

  /** uq_sms_amount_inventory_date_time. */
  ghost predicate UniqueSms(sms: map<nat, L.Sms>) {
    forall i, j :: i in sms && j in sms && i != j ==> sms[i] != sms[j]
  }

  /** A new SMS and its outbox row have been added, and nothing else. */
  ghost predicate Stored(sms: map<nat, L.Sms>, rows: O.Table, sms': map<nat, L.Sms>, rows': O.Table,
                         d: SmsData, tx: nat, row: nat, now: int) {
    && Complete(d) && SmsOf(d) !in sms.Values && sms' == sms[tx := SmsOf(d)]
    && rows' == rows[row := O.Row(O.Pending, PaymentData(tx, SmsOf(d).amount, d.traceId), Some(0), now, None, None)]
  }

  /** Storing is exactly the step of the pipeline that opens the life of an SMS. */
  lemma StoringAccepts(s: L.State, sms: map<nat, L.Sms>, rows: O.Table, d: SmsData, tx: nat, row: nat, now: int)
    requires tx > 0 && tx !in s.sms && row !in s.rows && Stored(s.sms, s.rows, sms, rows, d, tx, row, now)
    ensures L.CanAccept(s, tx, row, SmsOf(d))
    ensures L.DoAccept(s, tx, row, SmsOf(d), d.traceId, now) == s.(sms := sms, rows := rows)
  {
  }

  class Intake {
    var sms: map<nat, L.Sms>
    var rows: O.Table

    constructor (sms: map<nat, L.Sms>, rows: O.Table)
      ensures this.sms == sms && this.rows == rows
    {
      this.sms, this.rows := sms, rows;
    }

    /** INSERT under the unique constraint; the session's copy is what a commit publishes. */
    method CreateTransaction(d: SmsData, tx: nat) returns (session: map<nat, L.Sms>, refused: Option<Outcome>)
      ensures refused == if !Complete(d) then Some(InvalidSms)
                         else if SmsOf(d) in sms.Values then Some(DuplicateSms) else None
      ensures session == if refused.None? then sms[tx := SmsOf(d)] else sms
      ensures refused.None? ==>
                && d.amount == Some(session[tx].amount) && d.inventory == Some(session[tx].inventory)
                && d.date == Some(session[tx].date) && d.time == Some(session[tx].time)
      ensures refused == Some(InvalidSms) <==> None in {d.amount, d.inventory} || None in {d.date, d.time, d.payload}
    {
      if d.amount.None? || d.inventory.None? || d.date.None? || d.time.None? || d.payload.None? {
        return sms, Some(InvalidSms);
      }
      if SmsOf(d) in sms.Values {
        return sms, Some(DuplicateSms);
      }
      return sms[tx := SmsOf(d)], None;
    }

    /** `handle_transaction_service`, with the ids the sequences give: the SMS and its outbox
        row are committed together or not at all, also when the commit itself raises. */
    method HandleTransaction(d: SmsData, tx: nat, row: nat, now: int, fault: Fault) returns (r: Outcome)
      requires tx > 0 && tx !in sms && row !in rows && UniqueSms(sms)
      modifies this
      ensures UniqueSms(sms)
      ensures Stored(old(sms), old(rows), sms, rows, d, tx, row, now) || (sms == old(sms) && rows == old(rows))
      ensures r.Accepted? ==> r.tx == tx && Stored(old(sms), old(rows), sms, rows, d, tx, row, now)
      ensures r.Accepted? ==>
                && d.amount == Some(sms[tx].amount) && d.inventory == Some(sms[tx].inventory)
                && d.date == Some(sms[tx].date) && d.time == Some(sms[tx].time)
                && rows[row].status.Pending? && rows[row].retryCount == Some(0) && rows[row].createdAt == now
                && rows[row].data == PaymentData(tx, sms[tx].amount, d.traceId)
      // Each answer exactly, and that a commit which raised stored both rows iff it took effect.
      ensures r.InvalidSms? <==> !fault.DbFails? && !Complete(d)
      ensures r.DuplicateSms? <==> !fault.DbFails? && Complete(d) && SmsOf(d) in old(sms).Values
      ensures r.Accepted? <==> fault.NoFault? && Complete(d) && SmsOf(d) !in old(sms).Values
      ensures Stored(old(sms), old(rows), sms, rows, d, tx, row, now) <==>
                && Complete(d) && SmsOf(d) !in old(sms).Values
                && (fault.NoFault? || fault == CommitFails(true))
    {
      if fault.DbFails? {
        return Failed;
      }
      var session, refused := CreateTransaction(d, tx);
      if refused.Some? {
        return refused.value;
      }
      var data := PaymentData(tx, d.amount.value, d.traceId);
      var session' := rows[row := O.Row(O.Pending, data, Some(0), now, None, None)];
      if fault.NoFault? || fault.applied {
        sms, rows := session, session';
      }
      return if fault.NoFault? then Accepted(tx) else Failed;
    }
  }

  /** Posting the same SMS again after a post that was stored is refused as a duplicate, even
      when the first answer was an error: the two posts together store it exactly once. */
  method PostTwice(intake: Intake, d: SmsData, tx: nat, row: nat, tx': nat, row': nat, now: int, fault: Fault)
    returns (first: Outcome, second: Outcome)
    requires tx > 0 && tx' > 0 && tx !in intake.sms && tx' !in intake.sms && tx != tx'
    requires row !in intake.rows && row' !in intake.rows && row != row' && UniqueSms(intake.sms)
    modifies intake
    ensures first.Accepted? ==> second == DuplicateSms
    ensures Complete(d) && SmsOf(d) !in old(intake.sms).Values ==>
              || (intake.sms.Keys == old(intake.sms).Keys + {tx} && intake.rows.Keys == old(intake.rows).Keys + {row})
              || (intake.sms.Keys == old(intake.sms).Keys + {tx'} && intake.rows.Keys == old(intake.rows).Keys + {row'})
  {
    first := intake.HandleTransaction(d, tx, row, now, fault);
    assert Complete(d) && intake.sms != old(intake.sms) ==> intake.sms[tx] == SmsOf(d);
    second := intake.HandleTransaction(d, tx', row', now, NoFault);
  }
}
