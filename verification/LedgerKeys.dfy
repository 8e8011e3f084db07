// The strings behind Ledger.Key. Ids are UUIDs: 36 characters each.
module LedgerKeys {
  import opened Ledger

  type Uuid = s: string | |s| == 36 witness seq(36, _ => '0')

  ghost predicate Distinct(uuid: nat -> Uuid) {
    forall a, b :: uuid(a) == uuid(b) ==> a == b
  }

  function Render(key: Key, uuid: nat -> Uuid): string {
    match key
    case InitialCoins(user) => "user:" + uuid(user) + ":initial-virtual-coins"
    case StakeDebit(bet, clientKey) => "bet:" + uuid(bet) + ":debit:" + clientKey
    case SettlementCredit(round, user) => "round:" + uuid(round) + ":user:" + uuid(user) + ":settlement-credit"
    case CancelRefund(round, bet) => "round:" + uuid(round) + ":bet:" + uuid(bet) + ":cancel-refund"
    case RecoveryRefund(round, bet) => "round:" + uuid(round) + ":bet:" + uuid(bet) + ":recovery-refund"
    case Supplied(text) => text
  }

  lemma RenderedLength(key: Key, uuid: nat -> Uuid)
    ensures |Render(key, uuid)| == KeyLength(key)
  {
  }

  // The first 44 characters tell the families apart, up to the two kinds of refund.
  lemma FamiliesAreDisjoint(k: Key, l: Key, uuid: nat -> Uuid)
    requires !k.Supplied? && !l.Supplied?
    requires Render(k, uuid) == Render(l, uuid)
    ensures k.InitialCoins? == l.InitialCoins?
    ensures k.StakeDebit? == l.StakeDebit?
    ensures k.SettlementCredit? == l.SettlementCredit?
    ensures k.CancelRefund? == l.CancelRefund?
  {
    var s := Render(k, uuid);
    assert s[0] == if k.InitialCoins? then 'u' else if k.StakeDebit? then 'b' else 'r';
    assert s[0] == if l.InitialCoins? then 'u' else if l.StakeDebit? then 'b' else 'r';
    if s[0] == 'r' {
      assert s[43] == if k.SettlementCredit? then 'u' else 'b';
      assert s[43] == if l.SettlementCredit? then 'u' else 'b';
      RenderedLength(k, uuid);
      RenderedLength(l, uuid);
    }
  }

  // Keys the services build are equal as strings only when they are equal as keys, so the unique
  // column separates exactly what Ledger.Key separates.
  lemma RenderingIsInjective(k: Key, l: Key, uuid: nat -> Uuid)
    requires Distinct(uuid)
    requires !k.Supplied? && !l.Supplied?
    ensures Render(k, uuid) == Render(l, uuid) <==> k == l
  {
    if Render(k, uuid) == Render(l, uuid) {
      FamiliesAreDisjoint(k, l, uuid);
      var s, t := Render(k, uuid), Render(l, uuid);
      match k
      case InitialCoins(a) =>
        assert s[5..41] == uuid(a) && t[5..41] == uuid(l.user);
      case StakeDebit(a, c) =>
        assert s[4..40] == uuid(a) && t[4..40] == uuid(l.bet);
        assert s[47..] == c && t[47..] == l.clientKey;
      case SettlementCredit(a, b) =>
        assert s[6..42] == uuid(a) && t[6..42] == uuid(l.round);
        assert s[48..84] == uuid(b) && t[48..84] == uuid(l.user);
      case CancelRefund(a, b) =>
        assert s[6..42] == uuid(a) && t[6..42] == uuid(l.round);
        assert s[47..83] == uuid(b) && t[47..83] == uuid(l.bet);
      case RecoveryRefund(a, b) =>
        assert s[6..42] == uuid(a) && t[6..42] == uuid(l.round);
        assert s[47..83] == uuid(b) && t[47..83] == uuid(l.bet);
    }
  }
}
