/**
 The two ledger tables and the sums over them. A table is the sequence of its rows;
 the UNIQUE request id of a consumption row is enforced on insertion.
 */
module Ledgers {
  import opened Peers

  type RequestId = nat

  datatype Contributed = Contributed(peer: PeerId, owner: MemberId, gb: real, seconds: real)
  datatype Consumed = Consumed(member: MemberId, request: RequestId, peer: PeerId, promptTokens: nat, completionTokens: nat)
  datatype Books = Books(contributions: seq<Contributed>, consumptions: seq<Consumed>)
  datatype Balance = Balance(gbHours: real, ktokens: real, score: real)
  datatype Totals = Totals(gbHours: real, tokens: nat, requests: nat)

  const PRIOR_GB_HOURS := 1.0
  const PRIOR_KTOKENS := 1.0

  function RecordContribution(b: Books, row: Contributed): Books {
    if row.seconds <= 0.0 || row.gb < 0.0 then b else b.(contributions := b.contributions + [row])
  }

  predicate Billed(rows: seq<Consumed>, request: RequestId) {
    exists i :: 0 <= i < |rows| && rows[i].request == request
  }

  function RecordConsumption(b: Books, row: Consumed): Books {
    if Billed(b.consumptions, row.request) then b else b.(consumptions := b.consumptions + [row])
  }

  function Weight(r: Contributed): real {
    r.gb * r.seconds
  }

  function GbSeconds(rows: seq<Contributed>): real {
    if rows == [] then 0.0 else GbSeconds(rows[..|rows| - 1]) + Weight(rows[|rows| - 1])
  }

  function GbSecondsOf(rows: seq<Contributed>, m: MemberId): real {
    if rows == [] then 0.0
    else GbSecondsOf(rows[..|rows| - 1], m) + if rows[|rows| - 1].owner == m then Weight(rows[|rows| - 1]) else 0.0
  }

  function Tokens(rows: seq<Consumed>): nat {
    if rows == [] then 0
    else Tokens(rows[..|rows| - 1]) + rows[|rows| - 1].promptTokens + rows[|rows| - 1].completionTokens
  }

  function TokensOf(rows: seq<Consumed>, m: MemberId): nat {
    if rows == [] then
      0
    else
      var r := rows[|rows| - 1];
      TokensOf(rows[..|rows| - 1], m) + if r.member == m then r.promptTokens + r.completionTokens else 0
  }

  function BalanceOf(b: Books, m: MemberId): Balance
  {
    var gbHours := GbSecondsOf(b.contributions, m) / 3600.0;
    var ktokens := TokensOf(b.consumptions, m) as real / 1000.0;
    Balance(gbHours, ktokens, (gbHours + PRIOR_GB_HOURS) / (ktokens + PRIOR_KTOKENS))
  }

  function TotalsOf(b: Books): Totals {
    Totals(GbSeconds(b.contributions) / 3600.0, Tokens(b.consumptions), |b.consumptions|)
  }

  /** What every sequence of writes keeps: no negative row, no request billed twice. */
  predicate SoundBooks(b: Books) {
    && (forall i :: 0 <= i < |b.contributions| ==> b.contributions[i].gb >= 0.0 && b.contributions[i].seconds > 0.0)
    && forall i, j :: 0 <= i < j < |b.consumptions| ==> b.consumptions[i].request != b.consumptions[j].request
  }

  lemma WritesKeepSoundBooks(b: Books, r: Contributed, c: Consumed)
    requires SoundBooks(b)
    ensures SoundBooks(RecordContribution(b, r)) && SoundBooks(RecordConsumption(b, c))
  {
  }

  // ---- conservation ----

  predicate Distinct<T(==)>(xs: seq<T>) {
    forall i, j :: 0 <= i < j < |xs| ==> xs[i] != xs[j]
  }

  function SumGbHours(b: Books, names: seq<MemberId>): real {
    if names == [] then 0.0 else SumGbHours(b, names[..|names| - 1]) + BalanceOf(b, names[|names| - 1]).gbHours
  }

  function SumKtokens(b: Books, names: seq<MemberId>): real {
    if names == [] then 0.0 else SumKtokens(b, names[..|names| - 1]) + BalanceOf(b, names[|names| - 1]).ktokens
  }

  function SumGbSeconds(rows: seq<Contributed>, names: seq<MemberId>): real {
    if names == [] then 0.0 else SumGbSeconds(rows, names[..|names| - 1]) + GbSecondsOf(rows, names[|names| - 1])
  }

  function SumTokens(rows: seq<Consumed>, names: seq<MemberId>): nat {
    if names == [] then 0 else SumTokens(rows, names[..|names| - 1]) + TokensOf(rows, names[|names| - 1])
  }

  lemma {:induction false} LastRowCountsOnce(rows: seq<Contributed>, names: seq<MemberId>)
    requires rows != [] && Distinct(names)
    ensures SumGbSeconds(rows, names) == SumGbSeconds(rows[..|rows| - 1], names) +
                                         if rows[|rows| - 1].owner in names then Weight(rows[|rows| - 1]) else 0.0
  {
    if names != [] {
      LastRowCountsOnce(rows, names[..|names| - 1]);
    }
  }

  lemma {:induction false} LastCallCountsOnce(rows: seq<Consumed>, names: seq<MemberId>)
    requires rows != [] && Distinct(names)
    ensures var r := rows[|rows| - 1];
            SumTokens(rows, names) == SumTokens(rows[..|rows| - 1], names) +
                                      if r.member in names then r.promptTokens + r.completionTokens else 0
  {
    if names != [] {
      LastCallCountsOnce(rows, names[..|names| - 1]);
    }
  }

  lemma {:induction false} NoRowsNothing(names: seq<MemberId>)
    ensures SumGbSeconds([], names) == 0.0 && SumTokens([], names) == 0
  {
    if names != [] {
      NoRowsNothing(names[..|names| - 1]);
    }
  }

  lemma {:induction false} GbSecondsConserved(rows: seq<Contributed>, names: seq<MemberId>)
    requires Distinct(names) && forall i :: 0 <= i < |rows| ==> rows[i].owner in names
    ensures SumGbSeconds(rows, names) == GbSeconds(rows)
  {
    if rows == [] {
      NoRowsNothing(names);
    } else {
      LastRowCountsOnce(rows, names);
      GbSecondsConserved(rows[..|rows| - 1], names);
    }
  }

  lemma {:induction false} TokensConserved(rows: seq<Consumed>, names: seq<MemberId>)
    requires Distinct(names) && forall i :: 0 <= i < |rows| ==> rows[i].member in names
    ensures SumTokens(rows, names) == Tokens(rows)
  {
    if rows == [] {
      NoRowsNothing(names);
    } else {
      LastCallCountsOnce(rows, names);
      TokensConserved(rows[..|rows| - 1], names);
    }
  }

  lemma {:induction false} SumsScale(b: Books, names: seq<MemberId>)
    ensures SumGbHours(b, names) == SumGbSeconds(b.contributions, names) / 3600.0
    ensures SumKtokens(b, names) == SumTokens(b.consumptions, names) as real / 1000.0
  {
    if names != [] {
      SumsScale(b, names[..|names| - 1]);
    }
  }

  /** The balances of all names appearing in the tables add up to the totals. */
  lemma BalancesSumToTotals(b: Books, names: seq<MemberId>)
    requires Distinct(names)
    requires forall i :: 0 <= i < |b.contributions| ==> b.contributions[i].owner in names
    requires forall i :: 0 <= i < |b.consumptions| ==> b.consumptions[i].member in names
    ensures SumGbHours(b, names) == TotalsOf(b).gbHours
    ensures SumKtokens(b, names) == TotalsOf(b).tokens as real / 1000.0
  {
    SumsScale(b, names);
    GbSecondsConserved(b.contributions, names);
    TokensConserved(b.consumptions, names);
  }

  // ---- scores ----

  lemma {:induction false} GbSecondsNonNegative(rows: seq<Contributed>, m: MemberId)
    requires forall i :: 0 <= i < |rows| ==> rows[i].gb >= 0.0 && rows[i].seconds > 0.0
    ensures GbSecondsOf(rows, m) >= 0.0
  {
    if rows != [] {
      GbSecondsNonNegative(rows[..|rows| - 1], m);
    }
  }

  lemma ScorePositive(b: Books, m: MemberId)
    requires SoundBooks(b)
    ensures BalanceOf(b, m).score > 0.0
  {
    GbSecondsNonNegative(b.contributions, m);
  }

  lemma QuotientGrows(x: real, y: real, d: real)
    requires x <= y && d > 0.0
    ensures x / d <= y / d
  {
  }

  lemma QuotientShrinks(x: real, d: real, e: real)
    requires x >= 0.0 && 0.0 < d <= e
    ensures x / e <= x / d
  {
    assert x / d * d == x && x / e * e == x;
    assert x / e * d <= x / e * e;
  }

  /** A contribution row can only raise its owner's score and leaves everyone else's balance as it was. */
  lemma ContributionRaisesOnlyItsOwner(b: Books, row: Contributed, m: MemberId)
    requires SoundBooks(b)
    ensures BalanceOf(RecordContribution(b, row), row.owner).score >= BalanceOf(b, row.owner).score
    ensures m != row.owner ==> BalanceOf(RecordContribution(b, row), m) == BalanceOf(b, m)
  {
    var after := RecordContribution(b, row);
    if after != b {
      assert after.contributions[..|b.contributions|] == b.contributions;
      var d := BalanceOf(b, row.owner).ktokens + PRIOR_KTOKENS;
      QuotientGrows(BalanceOf(b, row.owner).gbHours + PRIOR_GB_HOURS, BalanceOf(after, row.owner).gbHours + PRIOR_GB_HOURS, d);
    }
  }

  /** A consumption row can only lower its member's score, and a second row for a request changes nothing. */
  lemma ConsumptionLowersOnlyItsMember(b: Books, row: Consumed, again: Consumed, m: MemberId)
    requires SoundBooks(b) && again.request == row.request
    ensures BalanceOf(RecordConsumption(b, row), row.member).score <= BalanceOf(b, row.member).score
    ensures m != row.member ==> BalanceOf(RecordConsumption(b, row), m) == BalanceOf(b, m)
    ensures RecordConsumption(RecordConsumption(b, row), again) == RecordConsumption(b, row)
  {
    var after := RecordConsumption(b, row);
    if after != b {
      assert after.consumptions[|b.consumptions|] == row;
      assert after.consumptions[..|b.consumptions|] == b.consumptions;
      GbSecondsNonNegative(b.contributions, row.member);
      QuotientShrinks(BalanceOf(b, row.member).gbHours + PRIOR_GB_HOURS,
        BalanceOf(b, row.member).ktokens + PRIOR_KTOKENS, BalanceOf(after, row.member).ktokens + PRIOR_KTOKENS);
    }
  }

  /** The score is what was contributed over what was consumed, each with the prior; a newcomer starts at one. */
  lemma ScoreIs(b: Books, m: MemberId)
    ensures BalanceOf(b, m).score * (TokensOf(b.consumptions, m) as real / 1000.0 + 1.0) ==
            GbSecondsOf(b.contributions, m) / 3600.0 + 1.0
    ensures GbSecondsOf(b.contributions, m) == 0.0 && TokensOf(b.consumptions, m) == 0 ==> BalanceOf(b, m).score == 1.0
  {
  }

  lemma QuotientRises(x: real, y: real, d: real)
    requires x < y && d > 0.0
    ensures x / d < y / d
  {
    assert x / d * d == x && y / d * d == y;
  }

  /** A contribution is written down if it is for some time and nothing negative, and then its owner's score rises by what was held. */
  lemma NewRowCredits(b: Books, row: Contributed)
    ensures var b' := RecordContribution(b, row);
            if row.seconds > 0.0 && row.gb >= 0.0
            then && GbSecondsOf(b'.contributions, row.owner) == GbSecondsOf(b.contributions, row.owner) + row.gb * row.seconds
                 && (row.gb > 0.0 ==> BalanceOf(b', row.owner).score > BalanceOf(b, row.owner).score)
            else b' == b
  {
    var b' := RecordContribution(b, row);
    if b' != b {
      assert b'.contributions[..|b.contributions|] == b.contributions;
      if row.gb > 0.0 {
        Positive(row.gb, row.seconds);
        QuotientRises(BalanceOf(b, row.owner).gbHours + PRIOR_GB_HOURS, BalanceOf(b', row.owner).gbHours + PRIOR_GB_HOURS,
                      BalanceOf(b, row.owner).ktokens + PRIOR_KTOKENS);
      }
    }
  }

  lemma Positive(x: real, y: real)
    requires x > 0.0 && y > 0.0
    ensures x * y > 0.0
  {
  }

  lemma QuotientFalls(x: real, d: real, e: real)
    requires x > 0.0 && 0.0 < d < e
    ensures x / e < x / d
  {
    assert x / d * d == x && x / e * e == x && x / e > 0.0;
    assert x / e * d < x / e * e;
  }

  /** The first row of a request adds its counts to its member and to the total; if it counts anything, the score falls. */
  lemma NewRowCharges(b: Books, row: Consumed)
    requires SoundBooks(b) && forall r :: r in b.consumptions ==> r.request != row.request
    ensures var b', n := RecordConsumption(b, row), row.promptTokens + row.completionTokens;
            && TotalsOf(b') == TotalsOf(b).(tokens := TotalsOf(b).tokens + n, requests := TotalsOf(b).requests + 1)
            && TokensOf(b'.consumptions, row.member) == TokensOf(b.consumptions, row.member) + n
            && (n > 0 ==> BalanceOf(b', row.member).score < BalanceOf(b, row.member).score)
            && forall m :: m != row.member ==> BalanceOf(b', m) == BalanceOf(b, m)
  {
    var b' := RecordConsumption(b, row);
    assert b'.consumptions[..|b.consumptions|] == b.consumptions;
    GbSecondsNonNegative(b.contributions, row.member);
    if row.promptTokens + row.completionTokens > 0 {
      QuotientFalls(BalanceOf(b, row.member).gbHours + PRIOR_GB_HOURS,
        BalanceOf(b, row.member).ktokens + PRIOR_KTOKENS, BalanceOf(b', row.member).ktokens + PRIOR_KTOKENS);
    }
  }

  // ---- the ledger object ----

  class Ledger {
    var contributions: seq<Contributed>
    var consumptions: seq<Consumed>

    ghost function View(): Books
      reads this
    {
      Books(contributions, consumptions)
    }

    constructor ()
      ensures View() == Books([], [])
    {
      contributions, consumptions := [], [];
    }

    method Contribute(peer: PeerId, owner: MemberId, gb: real, seconds: real)
      modifies this
      ensures View() == RecordContribution(old(View()), Contributed(peer, owner, gb, seconds))
    {
      if seconds <= 0.0 || gb < 0.0 {
        return;
      }
      contributions := contributions + [Contributed(peer, owner, gb, seconds)];
    }

    method Consume(row: Consumed)
      modifies this
      ensures View() == RecordConsumption(old(View()), row)
    {
      if !Billed(consumptions, row.request) {
        consumptions := consumptions + [row];
      }
    }

    function GetBalance(m: MemberId): Balance
      reads this
    {
      BalanceOf(Books(contributions, consumptions), m)
    }
  }
}
