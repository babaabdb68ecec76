/** Classic SSB feed references: an ed25519 public key of 32 bytes, written as a sigil. */
module Feeds {
  import opened Prelude
  import opened Base64

  const KEY_LENGTH := 32

  type FeedRef = k: seq<byte> | |k| == KEY_LENGTH witness seq(KEY_LENGTH, i => 0)

  function RefString(f: FeedRef): string {
    "@" + Encode(Std, f) + ".ed25519"
  }

  lemma RefStringShape(f: FeedRef)
    ensures |RefString(f)| == 53 && RefString(f)[0] == '@'
    ensures ':' !in RefString(f)
  {
    EncodeLength(Std, f);
    EncodeHasNo(Std, f, ':');
  }

  /** References are written with the digits of section 4, not those of section 5. */
  lemma RefStringIsStd(f: FeedRef)
    ensures '-' !in RefString(f) && '_' !in RefString(f)
  {
    EncodeHasNo(Std, f, '-');
    EncodeHasNo(Std, f, '_');
  }

  lemma Inside(a: string, b: string, c: string)
    ensures (a + b + c)[|a|..|a| + |b|] == b
  {
  }

  lemma RefStringInjective(f: FeedRef, g: FeedRef)
    requires RefString(f) == RefString(g)
    ensures f == g
  {
    EncodeLength(Std, f);
    EncodeLength(Std, g);
    Inside("@", Encode(Std, f), ".ed25519");
    Inside("@", Encode(Std, g), ".ed25519");
    EncodeInjective(Std, f, g);
  }
}

/**
 The strings clients sign: sign-in solutions (internal/signinwithssb/challenges.go)
 and alias registrations (internal/aliases/confirm.go).
*/
module Messages {
  import opened Prelude
  import opened Base64
  import opened Feeds

  const CHALLENGE_LENGTH := 32

  /** The challenge made from freshly drawn bytes. */
  function GenerateChallenge(drawn: seq<byte>): string
    requires |drawn| == CHALLENGE_LENGTH
  {
    Encode(Url, drawn)
  }

  function DecodeChallengeString(c: string): Result<seq<byte>> {
    var b := Decode(Url, c);
    if b.Err? then Err("invalid challenge encoding")
    else if |b.value| != CHALLENGE_LENGTH then Err("invalid challenge length")
    else b
  }

  ghost predicate IsGenerated(c: string) {
    exists drawn: seq<byte> :: |drawn| == CHALLENGE_LENGTH && c == GenerateChallenge(drawn)
  }

  lemma GeneratedShape(c: string)
    requires IsGenerated(c)
    ensures |c| == 44 && ':' !in c && '+' !in c && '/' !in c
  {
    var drawn: seq<byte> :| |drawn| == CHALLENGE_LENGTH && c == GenerateChallenge(drawn);
    ChallengeShape(drawn);
  }

  lemma ChallengeShape(drawn: seq<byte>)
    requires |drawn| == CHALLENGE_LENGTH
    ensures |GenerateChallenge(drawn)| == 44
    ensures ':' !in GenerateChallenge(drawn) && '+' !in GenerateChallenge(drawn) && '/' !in GenerateChallenge(drawn)
  {
    EncodeLength(Url, drawn);
    EncodeHasNo(Url, drawn, ':');
    EncodeHasNo(Url, drawn, '+');
    EncodeHasNo(Url, drawn, '/');
  }

  /** Every generated challenge decodes to the bytes drawn for it. */
  lemma ChallengeRoundTrip(drawn: seq<byte>)
    requires |drawn| == 32
    ensures DecodeChallengeString(GenerateChallenge(drawn)) == Ok(drawn)
  {
    DecodeEncode(Url, drawn);
  }

  datatype ClientPayload = ClientPayload(client: FeedRef, server: FeedRef, clientChallenge: string, serverChallenge: string)

  datatype Registration = Registration(alias: string, user: FeedRef, room: FeedRef)

  /** The part of a sign-in message after the two references. */
  function Challenges(p: ClientPayload): string {
    p.serverChallenge + ":" + p.clientChallenge
  }

  function CreateMessage(p: ClientPayload): string {
    "=http-auth-sign-in:" + RefString(p.server) + ":" + RefString(p.client) + ":" + Challenges(p)
  }

  function CreateRegistrationMessage(r: Registration): string {
    "=room-alias-registration:" + RefString(r.room) + ":" + RefString(r.user) + ":" + r.alias
  }

  /** Where the parts of such a message lie. */
  lemma Slices(prefix: string, u: string, v: string, s: string)
    requires |u| == |v| == 53
    ensures var x, n := prefix + u + ":" + v + ":" + s, |prefix|;
            |x| >= n + 108 && x[n..n+53] == u && x[n+54..n+107] == v && x[n+108..] == s
  {
    var n := |prefix|;
    var a := prefix + u;
    var b := a + ":" + v;
    var x := b + ":" + s;
    assert |a| == n + 53 && |b| == n + 107;
    assert a[n..n+53] == u;
    assert b[n..n+53] == a[n..n+53];
    assert x[n..n+53] == b[n..n+53];
    assert b[n+54..n+107] == v;
    assert x[n+54..n+107] == b[n+54..n+107];
    assert x[n+108..] == s;
  }

  /** Two references of fixed width between fixed separators can be told apart from what follows. */
  lemma RefsSeparate(prefix: string, a: FeedRef, b: FeedRef, s: string, c: FeedRef, d: FeedRef, t: string)
    requires prefix + RefString(a) + ":" + RefString(b) + ":" + s == prefix + RefString(c) + ":" + RefString(d) + ":" + t
    ensures a == c && b == d && s == t
  {
    RefStringShape(a);
    RefStringShape(b);
    RefStringShape(c);
    RefStringShape(d);
    Slices(prefix, RefString(a), RefString(b), s);
    Slices(prefix, RefString(c), RefString(d), t);
    RefStringInjective(a, c);
    RefStringInjective(b, d);
  }

  /** What a sign-in message tells about its fields, whatever the challenges are. */
  lemma MessagesEqualIff(p: ClientPayload, q: ClientPayload)
    ensures CreateMessage(p) == CreateMessage(q) <==>
              p.server == q.server && p.client == q.client && Challenges(p) == Challenges(q)
  {
    if CreateMessage(p) == CreateMessage(q) {
      RefsSeparate("=http-auth-sign-in:", p.server, p.client, Challenges(p), q.server, q.client, Challenges(q));
    }
  }

  lemma SplitAtColon(a: string, b: string, c: string, d: string)
    requires a + ":" + b == c + ":" + d && |a| <= |c|
    ensures (a == c && b == d) || (':' in c && ':' in b)
  {
    var s := a + ":" + b;
    if |a| == |c| {
      assert s[..|a|] == a && s[..|c|] == c;
      assert s[|a|+1..] == b && s[|c|+1..] == d;
    } else {
      assert c[|a|] == (c + ":" + d)[|a|] == s[|a|] == ':';
      assert b[|c| - |a| - 1] == s[|c|] == (c + ":" + d)[|c|] == ':';
    }
  }

  /** With server challenges made by GenerateChallenge the message determines all four fields. */
  lemma MessageDeterminesPayload(p: ClientPayload, q: ClientPayload)
    requires IsGenerated(p.serverChallenge) && IsGenerated(q.serverChallenge)
    requires CreateMessage(p) == CreateMessage(q)
    ensures p == q
  {
    MessagesEqualIff(p, q);
    GeneratedShape(p.serverChallenge);
    GeneratedShape(q.serverChallenge);
    SplitAtColon(p.serverChallenge, p.clientChallenge, q.serverChallenge, q.clientChallenge);
  }

  /**
   For challenges taken as they come, as SendSolution takes them, a message belongs
   to one payload exactly if neither challenge contains a colon.
  */
  lemma UnambiguousIffNoColon(p: ClientPayload)
    ensures (forall q :: CreateMessage(q) == CreateMessage(p) ==> q == p) <==>
              ':' !in p.serverChallenge && ':' !in p.clientChallenge
  {
    var sc, cc := p.serverChallenge, p.clientChallenge;
    if i :| 0 <= i < |sc| && sc[i] == ':' {
      var q := p.(serverChallenge := sc[..i], clientChallenge := sc[i+1..] + ":" + cc);
      assert sc == sc[..i] + ":" + sc[i+1..];
      assert Challenges(q) == Challenges(p);
      assert q != p && CreateMessage(q) == CreateMessage(p);
    } else if j :| 0 <= j < |cc| && cc[j] == ':' {
      var q := p.(serverChallenge := sc + ":" + cc[..j], clientChallenge := cc[j+1..]);
      assert cc == cc[..j] + ":" + cc[j+1..];
      assert Challenges(q) == Challenges(p);
      assert |q.serverChallenge| > |sc|;
      assert q != p && CreateMessage(q) == CreateMessage(p);
    } else {
      forall q | CreateMessage(q) == CreateMessage(p) ensures q == p {
        MessagesEqualIff(p, q);
        if |q.serverChallenge| <= |sc| {
          SplitAtColon(q.serverChallenge, q.clientChallenge, sc, cc);
        } else {
          SplitAtColon(sc, cc, q.serverChallenge, q.clientChallenge);
        }
      }
    }
  }

  /** The parts of a string between its colons. */
  function Fields(s: string): seq<string> {
    if s == "" then [""]
    else
      var rest := Fields(s[1..]);
      if s[0] == ':' then [""] + rest else [[s[0]] + rest[0]] + rest[1..]
  }

  lemma {:induction false} FieldThenRest(f: string, s: string)
    requires ':' !in f
    ensures Fields(f + ":" + s) == [f] + Fields(s)
  {
    var t := f + ":" + s;
    if f == "" {
      assert t == ":" + s && t[1..] == s;
    } else {
      assert f[0] in f && t[1..] == f[1..] + ":" + s;
      FieldThenRest(f[1..], s);
      assert f == [f[0]] + f[1..];
    }
  }

  lemma {:induction false} LastField(f: string)
    requires ':' !in f
    ensures Fields(f) == [f]
  {
    if f != "" {
      assert f[0] in f;
      LastField(f[1..]);
      assert f == [f[0]] + f[1..];
    }
  }

  lemma ThreeFields(a: string, b: string, c: string, rest: string)
    requires ':' !in a && ':' !in b && ':' !in c
    ensures Fields(a + ":" + b + ":" + c + ":" + rest) == [a, b, c] + Fields(rest)
  {
    var two := c + ":" + rest;
    var three := b + ":" + two;
    FieldThenRest(c, rest);
    FieldThenRest(b, two);
    FieldThenRest(a, three);
    Regroup(a + ":" + b, c, rest);
    Regroup(a, b, two);
  }

  lemma Regroup(a: string, b: string, c: string)
    ensures a + ":" + b + ":" + c == a + ":" + (b + ":" + c)
  {
  }

  /** What a sign-in message says, field by field: purpose, server, client, server challenge, client challenge. */
  lemma SignInFields(p: ClientPayload)
    requires ':' !in p.serverChallenge && ':' !in p.clientChallenge
    ensures Fields(CreateMessage(p)) ==
            ["=http-auth-sign-in", RefString(p.server), RefString(p.client), p.serverChallenge, p.clientChallenge]
  {
    RefStringShape(p.server);
    RefStringShape(p.client);
    var rest := p.serverChallenge + ":" + p.clientChallenge;
    ThreeFields("=http-auth-sign-in", RefString(p.server), RefString(p.client), rest);
    assert "=http-auth-sign-in:" == "=http-auth-sign-in" + ":";
    FieldThenRest(p.serverChallenge, p.clientChallenge);
    LastField(p.clientChallenge);
  }

  /** And a registration message: purpose, room, user, alias. */
  lemma RegistrationFields(r: Registration)
    requires ':' !in r.alias
    ensures Fields(CreateRegistrationMessage(r)) == ["=room-alias-registration", RefString(r.room), RefString(r.user), r.alias]
  {
    RefStringShape(r.room);
    RefStringShape(r.user);
    ThreeFields("=room-alias-registration", RefString(r.room), RefString(r.user), r.alias);
    assert "=room-alias-registration:" == "=room-alias-registration" + ":";
    LastField(r.alias);
  }

  /** A registration message determines room, user and alias. */
  lemma RegistrationDetermined(r: Registration, s: Registration)
    requires CreateRegistrationMessage(r) == CreateRegistrationMessage(s)
    ensures r == s
  {
    RefsSeparate("=room-alias-registration:", r.room, r.user, r.alias, s.room, s.user, s.alias);
  }

  /** No message of one kind is one of the other. */
  lemma KindsDisjoint(p: ClientPayload, r: Registration)
    ensures CreateMessage(p) != CreateRegistrationMessage(r)
  {
    var m, n := CreateMessage(p), CreateRegistrationMessage(r);
    assert m[1] == 'h' && n[1] == 'r';
  }

  const SIG_SUFFIX := ".sig.ed25519"

  /** strings.HasSuffix and strings.TrimSuffix. */
  predicate HasSuffix(s: string, suffix: string) {
    |suffix| <= |s| && s[|s| - |suffix|..] == suffix
  }

  function TrimSuffix(s: string, suffix: string): string {
    if HasSuffix(s, suffix) then s[..|s| - |suffix|] else s
  }

  lemma SuffixRoundTrip(s: string, suffix: string)
    ensures HasSuffix(s + suffix, suffix) && TrimSuffix(s + suffix, suffix) == s
  {
    assert (s + suffix)[|s|..] == suffix && (s + suffix)[..|s|] == s;
  }

  /** ed25519.Verify: public key, message, signature. */
  type Verifier = (FeedRef, string, seq<byte>) -> bool

  predicate Validate(verify: Verifier, p: ClientPayload, sig: seq<byte>) {
    verify(p.client, CreateMessage(p), sig)
  }

  predicate Verify(verify: Verifier, r: Registration, sig: seq<byte>) {
    verify(r.user, CreateRegistrationMessage(r), sig)
  }

  /**
   A signature is good for one message under this key. Ed25519 gives that for keys made
   as they should be, but not for all keys that ed25519.Verify lets pass.
  */
  ghost predicate Binding(verify: Verifier, key: FeedRef) {
    forall m, n, sig :: verify(key, m, sig) && verify(key, n, sig) ==> m == n
  }

  /**
   Under a binding key a signed solution is good for one sign-in only,
   a signed registration for one room and alias only, and neither for the other.
  */
  lemma SignaturesDoNotTransfer(verify: Verifier, p: ClientPayload, q: ClientPayload, r: Registration, s: Registration, sig: seq<byte>)
    requires Binding(verify, p.client)
    requires p.client == q.client == r.user == s.user
    ensures IsGenerated(p.serverChallenge) && IsGenerated(q.serverChallenge) ==>
              (Validate(verify, p, sig) && Validate(verify, q, sig) ==> p == q)
    ensures Verify(verify, r, sig) && Verify(verify, s, sig) ==> r == s
    ensures !(Validate(verify, p, sig) && Verify(verify, r, sig))
  {
    if Validate(verify, p, sig) && Validate(verify, q, sig) &&
       IsGenerated(p.serverChallenge) && IsGenerated(q.serverChallenge) {
      MessageDeterminesPayload(p, q);
    }
    if Verify(verify, r, sig) && Verify(verify, s, sig) {
      RegistrationDetermined(r, s);
    }
    KindsDisjoint(p, r);
  }
}
