/** Both halves of the token protocol together: the scheduler's runs against a server that keeps its
    tokens in a SessionTokenWallet, and the signed requests that go from one to the other. */
module TokenProtocol {
  import opened Basics
  import opened UrlEncode
  import opened Signature
  import SessionTypes
  import SchedulerRuns
  import KeyAgreement
  import SecretKey

  /** A std::string is a byte string. */
  predicate IsBytes(s: string) { forall i | 0 <= i < |s| :: s[i] as int < 256 }

  function AsBytes(s: string): bytes { if IsBytes(s) then s else [] }

  /** The wallet holds the server's tokens with their current keys. */
  ghost predicate Mirrors(tokens: Tokens, server: map<string, KeyAgreement.ServerKey>) {
    forall t: bytes ::
      && (t in tokens <==> t in server)
      && (t in tokens ==> tokens[t].time == server[t].time && tokens[t].secretKey == KeyAgreement.KeyNow(server[t]))
  }

  /** The token that the move hands out, if any. */
  function HandedOut(b: KeyAgreement.Both, m: KeyAgreement.Move): Option<SessionTypes.SessionToken> {
    if KeyAgreement.MoveEnabled(b, m) && m.Client? && m.a.TokenAnswered? && m.a.token.error == SessionTypes.NoError
    then Some(m.a.token.token)
    else None
  }

  /** What the move does to the wallet: AddValidToken, GenerateNextSecretKey or nothing. */
  function Served(tokens: Tokens, b: KeyAgreement.Both, m: KeyAgreement.Move): Tokens {
    var t := HandedOut(b, m);
    if t.Some? then
      var id := AsBytes(t.value.id);
      tokens[id := Token(id, AsBytes(t.value.pkey), [], AsBytes(t.value.time), t.value.secretKey)]
    else if m.ServerRenews? && KeyAgreement.MoveEnabled(b, m)
    then Renewed(tokens, AsBytes(b.w.s.sentWith[m.r].id))
    else tokens
  }

  function Wallet(moves: seq<KeyAgreement.Move>): Tokens {
    if moves == [] then map[]
    else
      var n := |moves| - 1;
      Served(Wallet(moves[..n]), KeyAgreement.Play(moves[..n]), moves[n])
  }

  /** All names and times are std::strings. */
  ghost predicate ByteTokens(moves: seq<KeyAgreement.Move>) {
    forall n | 0 <= n < |moves| ::
      var t := HandedOut(KeyAgreement.Play(moves[..n]), moves[n]);
      t.Some? ==> IsBytes(t.value.id) && IsBytes(t.value.time)
  }

  ghost predicate ByteNames(server: map<string, KeyAgreement.ServerKey>) { forall id | id in server :: IsBytes(id) }

  lemma IssueMirrors(tokens: Tokens, server: map<string, KeyAgreement.ServerKey>, t: SessionTypes.SessionToken)
    requires Mirrors(tokens, server) && IsBytes(t.id) && IsBytes(t.time)
    ensures var id := AsBytes(t.id);
      Mirrors(tokens[id := Token(id, AsBytes(t.pkey), [], AsBytes(t.time), t.secretKey)],
              server[t.id := KeyAgreement.Issued(t)])
  {
  }

  lemma RenewalMirrors(tokens: Tokens, server: map<string, KeyAgreement.ServerKey>, id: bytes)
    requires Mirrors(tokens, server) && id in server
    ensures Mirrors(Renewed(tokens, id), server[id := server[id].(renewals := server[id].renewals + 1)])
  {
  }

  lemma MoveMirrors(tokens: Tokens, b: KeyAgreement.Both, m: KeyAgreement.Move)
    requires Mirrors(tokens, b.server) && ByteNames(b.server)
    requires var t := HandedOut(b, m); t.Some? ==> IsBytes(t.value.id) && IsBytes(t.value.time)
    ensures var b' := KeyAgreement.MoveStep(b, m); Mirrors(Served(tokens, b, m), b'.server) && ByteNames(b'.server)
  {
    var t := HandedOut(b, m);
    if t.Some? { IssueMirrors(tokens, b.server, t.value); }
    else if m.ServerRenews? && KeyAgreement.MoveEnabled(b, m) {
      RenewalMirrors(tokens, b.server, AsBytes(b.w.s.sentWith[m.r].id));
    }
  }

  /** The wallet follows the server's record of keys through every play. */
  lemma {:induction false} WalletMirrors(moves: seq<KeyAgreement.Move>)
    requires ByteTokens(moves)
    ensures Mirrors(Wallet(moves), KeyAgreement.Play(moves).server) && ByteNames(KeyAgreement.Play(moves).server)
  {
    if moves != [] {
      var n := |moves| - 1;
      assert ByteTokens(moves[..n]) by {
        forall k | 0 <= k < n ensures
          var t := HandedOut(KeyAgreement.Play(moves[..n][..k]), moves[..n][k]);
          t.Some? ==> IsBytes(t.value.id) && IsBytes(t.value.time) {
          assert moves[..n][..k] == moves[..k];
        }
      }
      WalletMirrors(moves[..n]);
      MoveMirrors(Wallet(moves[..n]), KeyAgreement.Play(moves[..n]), moves[n]);
    }
  }

  /** In every play: a request in flight that holds its token, and for which the server has not renewed
      the key yet, was signed so that the wallet accepts it, whatever form it carries within the rules.
      So each renewal answers a request that validates. */
  lemma InFlightIsAccepted(moves: seq<KeyAgreement.Move>, r: SessionTypes.Request, form: Request, hash: Hash,
                           scan: HexScan)
    requires ByteTokens(moves) && PrintsPlain(hash) && ReadsHex(scan)
    requires var b := KeyAgreement.Play(moves); r in b.w.s.locker.checkedOut && r !in b.renewed
    requires var t := KeyAgreement.Play(moves).w.s.locker.checkedOut[r];
      IsBytes(t.id) && Signable(AsBytes(t.id), form.path, form.parts)
    ensures var b := KeyAgreement.Play(moves);
      && r in b.w.s.sentWith
      && var t := b.w.s.sentWith[r];
         OneAccepted(Wallet(moves), AsBytes(t.id), AsBytes(t.time), t.secretKey, form, hash, scan)
  {
    var b := KeyAgreement.Play(moves);
    var t := b.w.s.locker.checkedOut[r];
    WalletMirrors(moves);
    KeyAgreement.HeldFits(moves, r);
    var id := AsBytes(t.id);
    assert id in b.server && id in Wallet(moves);
    assert Wallet(moves)[id].time == t.time;
    AgreementIsAccepted(Wallet(moves), id, AsBytes(t.time), t.secretKey, form, hash, scan);
  }
}
