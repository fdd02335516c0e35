/** How one mailbox's stored credential changes while it is verified, read and polled. What the mail servers and the
    database answer is arbitrary; token refreshes return token fields only. */
module Credentials {
  import opened Text
  import opened Domain

  type Credential = map<string, string>

  /** `supportsMicrosoftGraph`, `isGmailMailbox`, or neither. */
  datatype Kind = Microsoft | Gmail | Other

  const METHOD := "imap_auth_method"
  const TOKEN_KEYS: set<string> := {"access_token", "refresh_token", "expires_at"}

  /** Reading a Go map: an absent key reads as the empty string. */
  function Field(c: Credential, key: string): string {
    if key in c then c[key] else ""
  }

  predicate Filled(c: Credential, key: string) {
    TrimSpace(Field(c, key)) != ""
  }

  predicate PasswordFixed(c: Credential) {
    EqualFold(TrimSpace(Field(c, METHOD)), "password")
  }

  /** `isMicrosoftIMAPOAuth`. */
  predicate ImapOAuth(kind: Kind, connection: Connection, c: Credential) {
    var protocol := ToLower(TrimSpace(Field(c, "oauth_protocol")));
    if kind != Microsoft || PasswordFixed(c) then false
    else if protocol in ["imap", "imap_oauth", "microsoft_imap", "microsoft_imap_oauth"] then true
    else if protocol in ["graph", "microsoft_graph"] then false
    else if connection == Imap then Filled(c, "client_id") && Filled(c, "refresh_token") && !Filled(c, "password")
    else (connection == Unspecified || connection == Auto) && Filled(c, "client_id") && Filled(c, "refresh_token")
  }

  /** `isMicrosoftIMAPPassword`. */
  predicate ImapPassword(kind: Kind, c: Credential) {
    kind == Microsoft && PasswordFixed(c)
  }

  /** `mergeCredential`: empty values do not overwrite. */
  function Merge(existing: Credential, refreshed: Credential): Credential {
    existing + map k | k in refreshed && refreshed[k] != "" :: refreshed[k]
  }

  predicate HasImapCredential(kind: Kind, c: Credential) {
    Filled(c, "access_token") || Filled(c, "password") || (kind == Gmail && Filled(c, "refresh_token"))
  }

  predicate HasFallback(kind: Kind, c: Credential, graphFailed: bool) {
    if kind == Microsoft && graphFailed && !Filled(c, "password") then false else HasImapCredential(kind, c)
  }

  // ---------------------------------------------------------------- what a write may do

  /** The chosen login method stays, or goes from nothing to "oauth", or from anything but "password" to "password". */
  predicate MethodMoves(a: Credential, b: Credential) {
    || Field(b, METHOD) == Field(a, METHOD)
    || (!PasswordFixed(a) && (Field(b, METHOD) == "password" || (Field(b, METHOD) == "oauth" && !Filled(a, METHOD))))
  }

  /** No field that had a value is dropped or emptied. */
  ghost predicate KeepsFields(a: Credential, b: Credential) {
    forall k :: k in a && a[k] != "" ==> k in b && b[k] != ""
  }

  ghost predicate Grows(a: Credential, b: Credential) {
    KeepsFields(a, b) && MethodMoves(a, b)
  }

  lemma LoginMethods()
    ensures PasswordFixed(map[METHOD := "password"]) && !PasswordFixed(map[METHOD := "oauth"])
      && Filled(map[METHOD := "oauth"], METHOD)
    ensures forall c: Credential :: Field(c, METHOD) == "password" ==> PasswordFixed(c)
    ensures forall c: Credential :: Field(c, METHOD) == "oauth" ==> !PasswordFixed(c) && Filled(c, METHOD)
    ensures forall c: Credential :: !Filled(c, METHOD) ==> !PasswordFixed(c)
  {
    assert TrimLeft("password") == "password" && TrimRight("password") == "password";
    assert TrimLeft("oauth") == "oauth" && TrimRight("oauth") == "oauth";
    assert |ToLower("oauth")| == 5 && |ToLower("password")| == 8 && |ToLower("")| == 0;
  }

  lemma GrowsTrans(a: Credential, b: Credential, c: Credential)
    requires Grows(a, b) && Grows(b, c)
    ensures Grows(a, c)
  {
    LoginMethods();
    hide TrimSpace, EqualFold;
  }

  lemma MergeGrows(a: Credential, refreshed: Credential)
    requires refreshed.Keys <= TOKEN_KEYS
    ensures Grows(a, Merge(a, refreshed)) && Field(Merge(a, refreshed), METHOD) == Field(a, METHOD)
  {
    assert METHOD !in TOKEN_KEYS;
  }

  lemma ChoosingGrows(a: Credential, b: Credential, choice: string)
    requires b == a[METHOD := choice] && !PasswordFixed(a)
    requires choice == "password" || (choice == "oauth" && !Filled(a, METHOD))
    ensures Grows(a, b)
  {
  }

  // ---------------------------------------------------------------- the record of a mailbox

  /** What happened to the credential: it was stored, or a token refresh was requested. */
  datatype Record = Saved(credential: Credential) | Refreshed

  /** The credential stored after the first `n` records. */
  function Stored(log: seq<Record>, n: nat): Credential
    requires n <= |log|
  {
    if n == 0 then map[]
    else if log[n - 1].Saved? then log[n - 1].credential
    else Stored(log, n - 1)
  }

  /** Record `i` keeps what was stored before it. */
  ghost predicate RecordOk(kind: Kind, log: seq<Record>, i: nat)
    requires i < |log|
  {
    var before := Stored(log, i);
    match log[i]
    case Saved(credential) => i > 0 ==> Grows(before, credential)
    case Refreshed => i > 0 && (kind == Microsoft ==> !PasswordFixed(before))
  }

  ghost predicate LogOk(kind: Kind, log: seq<Record>) {
    log != [] && log[0].Saved? && forall i :: 0 <= i < |log| ==> RecordOk(kind, log, i)
  }

  lemma {:induction false} StoredPrefix(log: seq<Record>, more: seq<Record>, n: nat)
    requires n <= |log|
    ensures Stored(log + more, n) == Stored(log, n)
  {
    if n > 0 { StoredPrefix(log, more, n - 1); }
  }

  lemma LogSnoc(kind: Kind, log: seq<Record>, r: Record)
    requires LogOk(kind, log)
    requires r.Saved? ==> Grows(Stored(log, |log|), r.credential)
    requires r.Refreshed? && kind == Microsoft ==> !PasswordFixed(Stored(log, |log|))
    ensures LogOk(kind, log + [r])
    ensures Stored(log + [r], |log| + 1) == if r.Saved? then r.credential else Stored(log, |log|)
  {
    hide Grows, PasswordFixed;
    forall i | 0 <= i < |log + [r]| ensures RecordOk(kind, log + [r], i) {
      StoredPrefix(log, [r], i);
      if i < |log| { assert RecordOk(kind, log, i); }
    }
    StoredPrefix(log, [r], |log|);
  }

  lemma {:induction false} StoredGrows(kind: Kind, log: seq<Record>, i: nat, j: nat)
    requires LogOk(kind, log) && 0 < i <= j <= |log|
    ensures Grows(Stored(log, i), Stored(log, j))
    decreases j - i
  {
    hide Grows;
    if i == j {
      GrowsSelf(Stored(log, i));
    } else {
      StoredGrows(kind, log, i, j - 1);
      assert RecordOk(kind, log, j - 1);
      if log[j - 1].Saved? { GrowsTrans(Stored(log, i), Stored(log, j - 1), Stored(log, j)); }
    }
  }

  lemma GrowsSelf(c: Credential)
    ensures Grows(c, c)
  {
  }

  /** Over any run: between any two moments no stored field is dropped or emptied, the login method has only moved
      from nothing to "oauth" to "password", and once it is "password" it stays and no token is refreshed again. */
  lemma CredentialForGood(kind: Kind, log: seq<Record>, i: nat, j: nat)
    requires LogOk(kind, log) && 0 < i <= j <= |log|
    ensures KeepsFields(Stored(log, i), Stored(log, j)) && MethodMoves(Stored(log, i), Stored(log, j))
    ensures PasswordFixed(Stored(log, i)) ==> PasswordFixed(Stored(log, j))
    ensures kind == Microsoft && PasswordFixed(Stored(log, i)) ==> forall k :: i <= k < j ==> log[k].Saved?
  {
    StoredGrows(kind, log, i, j);
    hide TrimSpace, EqualFold, KeepsFields;
    forall k | i <= k < j && kind == Microsoft && PasswordFixed(Stored(log, i)) ensures log[k].Saved? {
      StoredGrows(kind, log, i, k);
      assert RecordOk(kind, log, k);
    }
  }

  // ---------------------------------------------------------------- what the credential and the connectors are asked

  /** `credentialForIMAPFallback`: with a password, the access token is not sent. */
  function Fallback(c: Credential): Credential {
    if Filled(c, "password") then c - {"access_token"} else c
  }

  /** A refresh changes nothing but tokens. */
  ghost predicate SameButTokens(a: Credential, b: Credential) {
    forall k :: k !in TOKEN_KEYS ==> Field(a, k) == Field(b, k)
  }

  /** `credentialForIMAPOAuth`. */
  function Refreshable(c: Credential): Credential {
    c - {"access_token", "expires_at"}
  }

  /** One thing an operation did, with its outcome: a token refresh, a write of the credential, a question to Graph
      about its account or for its messages, an IMAP login or read, a write of the verification columns. */
  datatype Act =
    | Refresh(asked: Credential, answer: Option<Credential>)
    | Save(saved: Credential, ok: bool)
    | Profile(token: string, account: Option<string>)
    | GraphMessages(token: string, ok: bool)
    | ImapLogin(sent: Credential, ok: bool)
    | ImapMessages(sent: Credential, ok: bool)
    | Mark(connection: Connection, status: Verification, ok: bool)

  predicate OverGraph(a: Act) {
    a.Profile? || a.GraphMessages?
  }

  predicate OverImap(a: Act) {
    a.ImapLogin? || a.ImapMessages?
  }

  /** Asking for the account alone proves nothing. */
  predicate Worked(a: Act) {
    match a
    case Refresh(_, answer) => answer.Some?
    case Profile(_, _) => false
    case _ => a.ok
  }

  /** The last mail server asked said yes, and everything done since worked. */
  predicate Proven(acts: seq<Act>) {
    && acts != [] && Worked(acts[|acts| - 1])
    && (OverGraph(acts[|acts| - 1]) || OverImap(acts[|acts| - 1]) || Proven(acts[..|acts| - 1]))
  }

  /** The way to the last mail server asked. */
  function Via(acts: seq<Act>): Connection {
    if acts == [] then Auto
    else if OverGraph(acts[|acts| - 1]) then MicrosoftGraph
    else if OverImap(acts[|acts| - 1]) then Imap
    else Via(acts[..|acts| - 1])
  }

  lemma ProvenSnoc(acts: seq<Act>, a: Act)
    ensures Proven(acts + [a]) <==> Worked(a) && (OverGraph(a) || OverImap(a) || Proven(acts))
    ensures Via(acts + [a]) == if OverGraph(a) then MicrosoftGraph else if OverImap(a) then Imap else Via(acts)
  {
    assert (acts + [a])[..|acts|] == acts;
  }

  lemma {:induction false} ProvenIsVia(acts: seq<Act>)
    ensures Proven(acts) ==> Via(acts) == MicrosoftGraph || Via(acts) == Imap
  {
    if acts != [] { ProvenIsVia(acts[..|acts| - 1]); }
  }

  /** Graph answers for the mailbox's own account only. */
  predicate OwnAccount(acts: seq<Act>, address: string) {
    forall i :: 0 <= i < |acts| && acts[i].GraphMessages? ==>
      && i > 0 && acts[i - 1].Profile? && acts[i - 1].token == acts[i].token
      && acts[i - 1].account.Some? && EqualFold(acts[i - 1].account.value, address)
  }

  /** Nothing but refreshes, writes and questions to Graph about the own account. */
  predicate OnGraph(acts: seq<Act>, address: string) {
    OwnAccount(acts, address) && forall a :: a in acts ==> !OverImap(a)
  }

  lemma NothingProven()
    ensures !Proven([]) && forall address :: OnGraph([], address)
  {
  }

  /** One more act. Only a question to a mail server moves the way, and only a successful one proves anything. */
  lemma OneMoreAct(acts: seq<Act>, a: Act, address: string)
    ensures Proven(acts + [a]) <==> Worked(a) && (OverGraph(a) || OverImap(a) || Proven(acts))
    ensures Via(acts + [a]) == if OverGraph(a) then MicrosoftGraph else if OverImap(a) then Imap else Via(acts)
    ensures OnGraph(acts, address) && !a.GraphMessages? && !OverImap(a) ==> OnGraph(acts + [a], address)
    ensures OwnAccount(acts, address) && !a.GraphMessages? ==> OwnAccount(acts + [a], address)
    ensures acts <= acts + [a] && (!OverGraph(a) ==> NoMoreGraph(acts, acts + [a]))
  {
    ProvenSnoc(acts, a);
    OwnAccountSnoc(acts, a, address);
    hide Proven, Via, OwnAccount;
  }

  lemma OwnAccountSnoc(acts: seq<Act>, a: Act, address: string)
    ensures OwnAccount(acts, address) && !a.GraphMessages? ==> OwnAccount(acts + [a], address)
  {
    hide EqualFold;
    if OwnAccount(acts, address) && !a.GraphMessages? {
      forall i | 0 <= i < |acts + [a]| && (acts + [a])[i].GraphMessages?
        ensures i < |acts| && acts[i].GraphMessages? { }
    }
  }

  lemma OnGraphIsOwn(acts: seq<Act>, address: string)
    requires OnGraph(acts, address)
    ensures OwnAccount(acts, address) && forall a :: a in acts ==> !OverImap(a)
  {
  }

  /** What happens before the IMAP login only refreshes or saves. */
  predicate Prepares(acts: seq<Act>) {
    forall a :: a in acts ==> a.Refresh? || a.Save?
  }

  /** The messages are read with the token whose account was just found to be the own one. */
  lemma OwnMessages(acts: seq<Act>, token: string, account: string, ok: bool, address: string)
    requires OnGraph(acts, address) && EqualFold(account, address)
    ensures OnGraph(acts + [Profile(token, Some(account))] + [GraphMessages(token, ok)], address)
  {
    hide EqualFold;
  }

  lemma MergeKeeps(c: Credential, refreshed: Credential)
    requires refreshed.Keys <= TOKEN_KEYS
    ensures SameButTokens(c, Merge(c, refreshed)) && SameButTokens(c, c)
  {
  }

  lemma NotYetChosen(c: Credential, choice: string)
    requires (choice == "password" && !PasswordFixed(c)) || (choice == "oauth" && !Filled(c, METHOD))
    ensures !EqualFold(TrimSpace(Field(c, METHOD)), choice) && Filled(c[METHOD := choice], METHOD)
  {
    LoginMethods();
    assert |ToLower("oauth")| == 5 && |ToLower("")| == 0;
    hide TrimSpace, ToLower;
    PasswordIsFilled(c[METHOD := choice]);
  }

  lemma PasswordIsFilled(c: Credential)
    ensures Field(c, METHOD) == "password" ==> Filled(c, METHOD)
  {
    assert TrimLeft("password") == "password" && TrimRight("password") == "password";
  }

  lemma SameFields(a: Credential, b: Credential)
    requires SameButTokens(a, b)
    ensures Filled(a, "password") <==> Filled(b, "password")
    ensures Filled(a, METHOD) <==> Filled(b, METHOD)
    ensures Field(a, "password") == Field(b, "password")
  {
  }

  lemma PreparedGraph(before: seq<Act>, after: seq<Act>, address: string)
    requires before <= after && OnGraph(after, address) && Prepares(after[|before|..])
    ensures OwnAccount(after, address) && NoMoreGraph(before, after)
  {
    assert after == before + after[|before|..];
  }

  /** A login without an access token was tried. */
  predicate PasswordTried(acts: seq<Act>) {
    exists k :: 0 <= k < |acts| && (acts[k].ImapLogin? || acts[k].ImapMessages?) && "access_token" !in acts[k].sent
  }

  /** The way of logging in was stored. */
  predicate Remembered(acts: seq<Act>) {
    exists k :: 0 <= k < |acts| && acts[k].Save? && acts[k].ok && Filled(acts[k].saved, METHOD)
  }

  /** No access token was sent to the IMAP server. */
  predicate OnlyPassword(acts: seq<Act>) {
    forall k :: 0 <= k < |acts| && OverImap(acts[k]) ==> "access_token" !in acts[k].sent
  }

  /** Graph was not asked again. */
  predicate NoMoreGraph(before: seq<Act>, after: seq<Act>) {
    before <= after && forall a :: a in after && OverGraph(a) ==> a in before
  }

  lemma PreparingIsNoGraph(before: seq<Act>, after: seq<Act>)
    requires before <= after && Prepares(after[|before|..])
    ensures NoMoreGraph(before, after)
  {
    assert after == before + after[|before|..];
  }

  lemma NoMoreGraphTrans(a: seq<Act>, b: seq<Act>, c: seq<Act>)
    requires NoMoreGraph(a, b) && NoMoreGraph(b, c)
    ensures NoMoreGraph(a, c)
  {
  }

  lemma FallbackKeepsPassword(c: Credential)
    ensures Filled(Fallback(c), "password") <==> Filled(c, "password")
    ensures if Filled(c, "password") then "access_token" !in Fallback(c) else Fallback(c) == c
  {
    assert Field(c - {"access_token"}, "password") == Field(c, "password");
  }

  /** What is sent: to the IMAP server, no access token beside a password; for a refresh over IMAP, neither token nor
      date. */
  lemma SentIs(c: Credential)
    ensures Field(Fallback(c), "access_token")
      == if TrimSpace(Field(c, "password")) != "" then "" else Field(c, "access_token")
    ensures Field(Refreshable(c), "access_token") == "" && Field(Refreshable(c), "expires_at") == ""
    ensures forall k :: k != "access_token" ==>
      Field(Fallback(c), k) == Field(c, k) && (k != "expires_at" ==> Field(Refreshable(c), k) == Field(c, k))
  {
    hide TrimSpace;
  }

  lemma SameTrans(a: Credential, b: Credential, c: Credential)
    requires SameButTokens(a, b) && SameButTokens(b, c)
    ensures SameButTokens(a, c)
  {
  }

  /** Each refreshed value that is not empty replaces the old one; every other value stays. */
  lemma MergeIs(c: Credential, refreshed: Credential)
    ensures forall k ::
      Field(Merge(c, refreshed), k) == if Field(refreshed, k) != "" then Field(refreshed, k) else Field(c, k)
  {
  }

  lemma NothingTried(address: string)
    ensures !Proven([]) && OnGraph([], address) && OwnAccount([], address) && NoMoreGraph([], [])
  {
  }

  /** Graph is the first choice: a Microsoft mailbox that is not bound to IMAP, with a token to begin with. */
  predicate GraphFirst(kind: Kind, connection: Connection, hasGraph: bool, c: Credential) {
    && kind == Microsoft && connection != Imap && !ImapOAuth(kind, connection, c) && !ImapPassword(kind, c)
    && hasGraph && (Field(c, "access_token") != "" || Field(c, "refresh_token") != "")
  }

  /** What it takes to fall back to IMAP. */
  lemma FallbackIs(kind: Kind, c: Credential)
    ensures forall graphFailed :: HasFallback(kind, c, graphFailed) <==>
      || Filled(c, "password")
      || (!(kind == Microsoft && graphFailed) && Filled(c, "access_token"))
      || (kind == Gmail && Filled(c, "refresh_token"))
  {
  }

  /** The two ways of a Microsoft mailbox to use IMAP, by what its credential says. The password is one if it was
      chosen. */
  lemma PasswordRule(kind: Kind, c: Credential)
    ensures ImapPassword(kind, c) <==>
      kind == Microsoft && ToLower(TrimSpace(Field(c, "imap_auth_method"))) == "password"
    ensures PasswordFixed(c) <==> ToLower(TrimSpace(Field(c, "imap_auth_method"))) == "password"
  {
    assert ToLower("password") == "password";
    hide TrimSpace, ToLower;
  }

  /** OAuth is one if the protocol says so, or if it says nothing and the tokens came with an import. */
  lemma OAuthRules(kind: Kind, connection: Connection, c: Credential)
    ensures kind != Microsoft || ToLower(TrimSpace(Field(c, "imap_auth_method"))) == "password" ==>
      !ImapOAuth(kind, connection, c)
    ensures kind == Microsoft && ToLower(TrimSpace(Field(c, "imap_auth_method"))) != "password" ==>
      var protocol := ToLower(TrimSpace(Field(c, "oauth_protocol")));
      var tokens := TrimSpace(Field(c, "client_id")) != "" && TrimSpace(Field(c, "refresh_token")) != "";
      && (protocol in ["imap", "imap_oauth", "microsoft_imap", "microsoft_imap_oauth"] ==>
            ImapOAuth(kind, connection, c))
      && (protocol in ["graph", "microsoft_graph"] ==> !ImapOAuth(kind, connection, c))
      && (protocol !in ["imap", "imap_oauth", "microsoft_imap", "microsoft_imap_oauth", "graph", "microsoft_graph"] ==>
            (ImapOAuth(kind, connection, c) <==>
               || (connection == Imap && tokens && TrimSpace(Field(c, "password")) == "")
               || ((connection == Unspecified || connection == Auto) && tokens)))
  {
    PasswordRule(kind, c);
    OtherProtocol(ToLower(TrimSpace(Field(c, "oauth_protocol"))));
    hide TrimSpace, ToLower, PasswordFixed;
  }

  lemma OtherProtocol(p: string)
    ensures p in ["graph", "microsoft_graph"] ==> p !in ["imap", "imap_oauth", "microsoft_imap", "microsoft_imap_oauth"]
    ensures p in ["imap", "imap_oauth", "microsoft_imap", "microsoft_imap_oauth", "graph", "microsoft_graph"] <==>
      || p in ["imap", "imap_oauth", "microsoft_imap", "microsoft_imap_oauth"]
      || p in ["graph", "microsoft_graph"]
  {
    assert |"imap"| == 4 && |"imap_oauth"| == 10 && |"microsoft_imap"| == 14 && |"microsoft_imap_oauth"| == 20;
    assert |"graph"| == 5 && |"microsoft_graph"| == 15;
  }

  // ---------------------------------------------------------------- the mailbox and its connectors

  class Account {
    const kind: Kind
    const address: string
    /** RFC 3339 to seconds; 0 when it does not parse. */
    const parse: string -> int
    const hasGraph: bool
    const hasImap: bool
    const hasImapRefresher: bool
    const hasGoogle: bool
    var config: Credential
    var connection: Connection
    var oauthValidUntil: int
    /** What happened to the stored credential. */
    ghost var log: seq<Record>
    /** Everything done, oldest first. */
    ghost var acts: seq<Act>

    constructor (kind: Kind, address: string, parse: string -> int, hasGraph: bool, hasImap: bool,
                 hasImapRefresher: bool, hasGoogle: bool, config: Credential, connection: Connection,
                 oauthValidUntil: int)
      ensures Valid() && this.config == config && this.kind == kind && log == [Saved(config)] && acts == []
    {
      this.kind, this.address, this.parse := kind, address, parse;
      this.hasGraph, this.hasImap, this.hasImapRefresher, this.hasGoogle :=
        hasGraph, hasImap, hasImapRefresher, hasGoogle;
      this.config, this.connection, this.oauthValidUntil := config, connection, oauthValidUntil;
      log, acts := [Saved(config)], [];
    }

    ghost predicate Valid()
      reads this`config, this`log
    {
      LogOk(kind, log) && Stored(log, |log|) == config
    }

    /** `c` has all that is stored, and a Microsoft account is not committed to its password. */
    ghost predicate InHand(c: Credential)
      reads this`config, this`log
    {
      Valid() && Grows(config, c) && (kind == Microsoft ==> !PasswordFixed(c) && !PasswordFixed(config))
    }

    /** The database may refuse; then nothing changes. */
    method UpdateMailboxCredential(updated: Credential, validUntil: int) returns (saved: bool)
      modifies this
      ensures old(Valid()) && Grows(old(config), updated) ==> Valid()
      ensures config == if saved then updated else old(config)
      ensures connection == old(connection) && old(log) <= log && acts == old(acts) + [Save(updated, saved)]
    {
      hide Grows, LogOk;
      saved := *;
      if saved {
        if Valid() && Grows(config, updated) { LogSnoc(kind, log, Saved(updated)); }
        config, oauthValidUntil, log := updated, validUntil, log + [Saved(updated)];
      }
      acts := acts + [Save(updated, saved)];
    }

    /** Asking the provider for new tokens; `None` is an error. */
    method RefreshTokens(asked: Credential) returns (refreshed: Option<Credential>, validUntil: int)
      modifies this`log, this`acts
      ensures old(Valid()) && (kind == Microsoft ==> !PasswordFixed(config)) ==> Valid()
      ensures refreshed.Some? ==> refreshed.value.Keys <= TOKEN_KEYS
      ensures old(log) <= log && acts == old(acts) + [Refresh(asked, refreshed)]
    {
      hide Grows, LogOk, PasswordFixed;
      if Valid() && (kind == Microsoft ==> !PasswordFixed(config)) { LogSnoc(kind, log, Refreshed); }
      log := log + [Refreshed];
      refreshed :| refreshed.None? || refreshed.value.Keys <= TOKEN_KEYS;
      validUntil := *;
      acts := acts + [Refresh(asked, refreshed)];
    }

    method UpdateMailboxVerification(newConnection: Connection, status: Verification) returns (saved: bool)
      modifies this`connection, this`acts
      ensures old(Valid()) ==> Valid()
      ensures connection == if saved then newConnection else old(connection)
      ensures acts == old(acts) + [Mark(newConnection, status, saved)]
    {
      saved := *;
      if saved {
        connection := newConnection;
      }
      acts := acts + [Mark(newConnection, status, saved)];
    }

    method PersistImapAuthMethod(c: Credential, validUntil: int, choice: string) returns (saved: bool)
      requires InHand(c) && kind == Microsoft && (choice == "password" || (choice == "oauth" && !Filled(c, METHOD)))
      modifies this
      ensures Valid() && old(log) <= log && connection == old(connection)
      ensures !saved ==> InHand(c)
      ensures if EqualFold(TrimSpace(Field(c, METHOD)), choice)
              then saved && config == old(config) && log == old(log) && acts == old(acts)
              else && config == (if saved then c[METHOD := choice] else old(config))
                   && acts == old(acts) + [Save(c[METHOD := choice], saved)]
    {
      if EqualFold(TrimSpace(Field(c, METHOD)), choice) {
        return true;
      }
      ChoosingGrows(c, c[METHOD := choice], choice);
      GrowsTrans(config, c, c[METHOD := choice]);
      hide Grows, LogOk;
      saved := UpdateMailboxCredential(c[METHOD := choice], validUntil);
    }

    lemma StartInHand(c: Credential)
      requires Valid() && c == config
      ensures ImapOAuth(kind, connection, c) ==> kind == Microsoft && !ImapPassword(kind, c)
      ensures ImapPassword(kind, c) ==> kind == Microsoft
      ensures !ImapPassword(kind, c) ==> InHand(c)
    {
      GrowsSelf(c);
    }

    /** One refresh, asked for with `asked`, merged into `c` and saved. Here and below an operation that began at `base`
        has done `before` so far and `after` in the end. */
    method RefreshAndSave(c: Credential, asked: Credential, ghost base: seq<Act>, ghost before: seq<Act>)
      returns (merged: Credential, validUntil: int, refreshed: bool, saved: bool, ghost after: seq<Act>)
      requires InHand(c) && acts == base + before
      modifies this
      ensures InHand(merged) && old(log) <= log && connection == old(connection) && acts == base + after
      ensures (saved ==> refreshed) && SameButTokens(c, merged) && (!refreshed ==> merged == c)
      ensures |after| == |before| + (if refreshed then 2 else 1) && before <= after
      ensures after[|before|].Refresh? && after[|before|].asked == asked
        && (after[|before|].answer.Some? <==> refreshed)
      ensures refreshed ==>
        merged == Merge(c, after[|before|].answer.value) && after[|before| + 1] == Save(merged, saved)
      ensures (Proven(after) <==> saved && Proven(before)) && Via(after) == Via(before)
      ensures OnGraph(before, address) ==> OnGraph(after, address)
    {
      hide Valid, LogOk, TrimSpace, EqualFold, Merge, SameButTokens, Proven, Via, OnGraph;
      MergeKeeps(c, map[]);
      var fresh': Option<Credential>;
      fresh', validUntil := RefreshTokens(asked);
      OneMoreAct(before, Refresh(asked, fresh'), address);
      after := before + [Refresh(asked, fresh')];
      if fresh'.None? {
        return c, validUntil, false, false, after;
      }
      merged := Merge(c, fresh'.value);
      MergeGrows(c, fresh'.value);
      MergeKeeps(c, fresh'.value);
      GrowsTrans(config, c, merged);
      saved := UpdateMailboxCredential(merged, validUntil);
      GrowsSelf(merged);
      OneMoreAct(after, Save(merged, saved), address);
      after := after + [Save(merged, saved)];
      refreshed := true;
    }

    /** Storing the credential in hand again, to renew its validity. */
    method SaveInHand(c: Credential, validUntil: int) returns (saved: bool)
      requires InHand(c)
      modifies this
      ensures InHand(c) && old(log) <= log && connection == old(connection) && acts == old(acts) + [Save(c, saved)]
    {
      hide Valid, LogOk, TrimSpace, EqualFold;
      saved := UpdateMailboxCredential(c, validUntil);
      GrowsSelf(c);
    }

    // -------------------------------------------------------------- the mail servers, whose answers are arbitrary

    method AskProfile(token: string) returns (account: Option<string>)
      modifies this`acts
      ensures acts == old(acts) + [Profile(token, account)]
    {
      account := *;
      acts := acts + [Profile(token, account)];
    }

    method ReadGraph(token: string) returns (ok: bool)
      modifies this`acts
      ensures acts == old(acts) + [GraphMessages(token, ok)]
    {
      ok := *;
      acts := acts + [GraphMessages(token, ok)];
    }

    method LogInToImap(sent: Credential) returns (ok: bool)
      modifies this`acts
      ensures acts == old(acts) + [ImapLogin(sent, ok)]
    {
      ok := *;
      acts := acts + [ImapLogin(sent, ok)];
    }

    method ReadImap(sent: Credential) returns (ok: bool)
      modifies this`acts
      ensures acts == old(acts) + [ImapMessages(sent, ok)]
    {
      ok := *;
      acts := acts + [ImapMessages(sent, ok)];
    }

    /** The account behind the token must be the mailbox's own, and its messages readable. */
    method VerifyGraphAccess(token: string, ghost base: seq<Act>, ghost before: seq<Act>)
      returns (ok: bool, ghost after: seq<Act>)
      requires acts == base + before
      modifies this`acts
      ensures acts == base + after && before <= after && |after| > |before|
      ensures after[|before|].Profile? && after[|before|].token == token
      ensures (Proven(after) <==> ok) && Via(after) == MicrosoftGraph
      ensures OnGraph(before, address) ==> OnGraph(after, address)
    {
      hide Proven, Via, OnGraph, EqualFold;
      var account := AskProfile(token);
      OneMoreAct(before, Profile(token, account), address);
      after := before + [Profile(token, account)];
      ok := account.Some? && EqualFold(account.value, address);
      if ok {
        ok := ReadGraph(token);
        OneMoreAct(after, GraphMessages(token, ok), address);
        if OnGraph(before, address) { OwnMessages(before, token, account.value, ok, address); }
        after := after + [GraphMessages(token, ok)];
      }
    }

    // -------------------------------------------------------------- parts of the operations

    /** `refreshGoogleCredential` without force. */
    method RefreshGoogle(c: Credential, now: int, ghost base: seq<Act>, ghost before: seq<Act>)
      returns (ready: bool, used: Credential, ghost after: seq<Act>)
      requires Valid() && acts == base + before && (kind == Gmail && !Filled(c, "password") ==> InHand(c))
      modifies this
      ensures Valid() && old(log) <= log && connection == old(connection) && acts == base + after && before <= after
      ensures after == before ==> config == old(config) && log == old(log) && used == c
      ensures kind != Gmail || Filled(c, "password") ==> ready && after == before
      ensures kind == Gmail && !Filled(c, "password") && !hasGoogle ==>
        after == before && (ready <==> Filled(c, "access_token"))
      ensures kind == Gmail && !Filled(c, "password") && hasGoogle ==>
        var validUntil := parse(TrimSpace(Field(c, "expires_at")));
        if Filled(c, "access_token") && (validUntil == 0 || validUntil > now + 30) then ready && after == before
        else if !Filled(c, "refresh_token") then !ready && after == before
        else && |after| > |before| && after[|before|].Refresh? && after[|before|].asked == c
             && (ready <==> |after| == |before| + 2 && after[|before| + 1].Save? && after[|before| + 1].ok)
             && (ready ==> after[|before| + 1].saved == used) && |after| <= |before| + 2
      ensures (Proven(after) ==> Proven(before)) && (OnGraph(before, address) ==> OnGraph(after, address))
      ensures Prepares(after[|before|..])
    {
      hide LogOk, Grows, TrimSpace, EqualFold, PasswordFixed, Filled, Proven, Via, OnGraph;
      if kind != Gmail || Filled(c, "password") {
        return true, c, before;
      }
      if !hasGoogle {
        return Filled(c, "access_token"), c, before;
      }
      var validUntil := parse(TrimSpace(Field(c, "expires_at")));
      if Filled(c, "access_token") && (validUntil == 0 || validUntil > now + 30) {
        return true, c, before;
      }
      if !Filled(c, "refresh_token") {
        return false, c, before;
      }
      var until, refreshed;
      used, until, refreshed, ready, after := RefreshAndSave(c, c, base, before);
    }

    /** The Graph attempt of Verify: refresh an expired token, try it, refresh a refused one once, and store the
        outcome. */
    method VerifyOverGraph(start: Credential, now: int, ghost base: seq<Act>)
      returns (c: Credential, graphOk: bool, ghost after: seq<Act>)
      requires InHand(start) && acts == base
      modifies this
      ensures InHand(c) && old(log) <= log && connection == old(connection) && acts == base + after
      ensures SameButTokens(start, c) && OnGraph(after, address)
      ensures graphOk && Field(c, "access_token") != "" <==> Proven(after)
      ensures Proven(after) ==> Via(after) == MicrosoftGraph && Save(c, true) in after
      ensures after != [] && var validUntil := parse(Field(start, "expires_at"));
        if Field(start, "access_token") == "" || (validUntil != 0 && validUntil <= now)
        then after[0].Refresh? && after[0].asked == start
        else after[0].Profile? && after[0].token == Field(start, "access_token")
    {
      hide InHand, TrimSpace, EqualFold, Proven, Via, OnGraph, SameButTokens;
      NothingProven();
      MergeKeeps(start, map[]);
      var validUntil, didRefresh := parse(Field(start, "expires_at")), false;
      c, graphOk, after := start, false, [];
      assert base + [] == base;
      if Field(c, "access_token") == "" || (validUntil != 0 && validUntil <= now) {
        var until, refreshed, saved;
        c, until, refreshed, saved, after := RefreshAndSave(c, c, base, after);
        graphOk, didRefresh := saved, saved;
      } else {
        graphOk := true;
      }
      if !graphOk || Field(c, "access_token") == "" {
        return;
      }
      ghost var before, prepared := after, c;
      c, graphOk, after := AskGraph(c, didRefresh, if validUntil == 0 then now + 900 else validUntil, base, after);
      SameTrans(start, prepared, c);
    }

    /** Asks Graph, refreshes a refused token once and asks again, and stores the outcome. */
    method AskGraph(start: Credential, refreshedAlready: bool, validUntil: int, ghost base: seq<Act>,
                    ghost before: seq<Act>)
      returns (c: Credential, graphOk: bool, ghost after: seq<Act>)
      requires InHand(start) && acts == base + before && OnGraph(before, address) && Field(start, "access_token") != ""
      modifies this
      ensures InHand(c) && old(log) <= log && connection == old(connection) && acts == base + after && before <= after
      ensures SameButTokens(start, c) && OnGraph(after, address) && (graphOk ==> Field(c, "access_token") != "")
      ensures |after| > |before| && after[|before|].Profile? && after[|before|].token == Field(start, "access_token")
      ensures (graphOk <==> Proven(after)) && Via(after) == MicrosoftGraph
      ensures graphOk ==> Save(c, true) in after || (refreshedAlready && c == start)
      ensures !graphOk && !refreshedAlready && Field(start, "refresh_token") != "" ==>
        exists k :: |before| < k < |after| && (after[k].Refresh? || after[k].Save?)
    {
      hide InHand, TrimSpace, EqualFold, Proven, Via, OnGraph, SameButTokens, Merge;
      MergeKeeps(start, map[]);
      var didRefresh := refreshedAlready;
      c := start;
      graphOk, after := VerifyGraphAccess(Field(c, "access_token"), base, before);
      if !graphOk && !didRefresh && Field(c, "refresh_token") != "" {
        var until, refreshed, saved;
        ghost var asked := |after|;
        c, until, refreshed, saved, after := RefreshAndSave(c, c, base, after);
        assert after[asked].Refresh?;
        if refreshed { MergeIs(start, after[asked].answer.value); }
        if saved {
          graphOk, after := VerifyGraphAccess(Field(c, "access_token"), base, after);
          didRefresh := graphOk;
        }
      }
      if graphOk && !didRefresh {
        graphOk := SaveInHand(c, validUntil);
        OneMoreAct(after, Save(c, graphOk), address);
        after := after + [Save(c, graphOk)];
        assert after[|after| - 1].Save?;
      }
    }

    /** What is done before the IMAP server is asked: `sent` is the credential it will be asked with. */
    method PrepareImap(start: Credential, oauth: bool, password: bool, now: int, until: int, ghost base: seq<Act>,
                       ghost before: seq<Act>)
      returns (c: Credential, sent: Credential, imapUntil: int, ready: bool, ghost after: seq<Act>)
      requires Valid() && acts == base + before && !(oauth && password) && (!password ==> InHand(start))
      modifies this
      ensures Valid() && old(log) <= log && connection == old(connection) && acts == base + after && before <= after
      ensures (password ==> log == old(log) && config == old(config)) && (!password && kind == Microsoft ==> InHand(c))
      ensures SameButTokens(start, c) && (Proven(after) ==> Proven(before))
      ensures (OnGraph(before, address) ==> OnGraph(after, address)) && Prepares(after[|before|..])
      ensures password || (!oauth && (kind != Gmail || Filled(start, "password"))) ==>
        c == start && ready && after == before && sent == Fallback(start)
      ensures oauth && before == [] ==>
        OAuthPrepared(start, now, after, ready, sent) && (!NeedsRefresh(start, now) ==> c == start)
      ensures !oauth && !password && kind == Gmail && !Filled(start, "password") && before == [] ==>
        GooglePrepared(start, now, after, ready, sent)
    {
      hide LogOk, Grows, TrimSpace, EqualFold, PasswordFixed, Filled, Proven, Via, OnGraph, NeedsRefresh, SameButTokens,
        Fallback;
      MergeKeeps(start, map[]);
      c, imapUntil, ready, after := start, until, true, before;
      sent := Fallback(c);
      FallbackKeepsPassword(c);
      if oauth {
        sent := c;
        if NeedsRefresh(c, now) {
          ready := false;
          if hasImapRefresher {
            var newUntil, refreshed;
            c, newUntil, refreshed, ready, after := RefreshAndSave(c, Refreshable(c), base, before);
            if refreshed {
              sent, imapUntil := c, newUntil;
            }
          }
        }
      } else if !password {
        ready, sent, after := RefreshGoogle(sent, now, base, before);
      }
    }

    /** A token over IMAP needs a refresh when there is none or when it has a date that has come. */
    lemma NeedsRefreshExactly(c: Credential, now: int)
      ensures NeedsRefresh(c, now) <==>
        var validUntil := parse(TrimSpace(Field(c, "expires_at")));
        TrimSpace(Field(c, "access_token")) == "" || (validUntil != 0 && now >= validUntil)
    {
      hide TrimSpace;
    }

    /** `imapOAuthCredentialNeedsRefresh`. */
    function NeedsRefresh(c: Credential, now: int): bool {
      !Filled(c, "access_token")
        || (parse(TrimSpace(Field(c, "expires_at"))) != 0 && parse(TrimSpace(Field(c, "expires_at"))) <= now)
    }

    /** Logs in with `sent`, and if that works and nothing was chosen yet, remembers OAuth. */
    method TryLogin(c: Credential, sent: Credential, imapUntil: int, choose: bool, ghost base: seq<Act>,
                    ghost before: seq<Act>)
      returns (imapOk: bool, ghost after: seq<Act>)
      requires Valid() && acts == base + before && OwnAccount(before, address)
      requires choose ==> InHand(c) && kind == Microsoft && !Filled(c, METHOD)
      modifies this
      ensures Valid() && old(log) <= log && connection == old(connection) && acts == base + after
      ensures (!choose ==> log == old(log) && config == old(config)) && (choose && !imapOk ==> InHand(c))
      ensures (imapOk <==> Proven(after)) && Via(after) == Imap && OwnAccount(after, address)
      ensures NoMoreGraph(before, after) && before <= after
      ensures |after| > |before| && after[|before|].ImapLogin? && after[|before|].sent == sent
      ensures !choose ==> |after| == |before| + 1
      ensures choose && imapOk ==> |after| == |before| + 2 && after[|before| + 1] == Save(c[METHOD := "oauth"], true)
    {
      hide LogOk, Grows, TrimSpace, EqualFold, PasswordFixed, Filled, Proven, Via, OnGraph, OwnAccount, InHand,
        NoMoreGraph;
      imapOk := LogInToImap(sent);
      OneMoreAct(before, ImapLogin(sent, imapOk), address);
      after := before + [ImapLogin(sent, imapOk)];
      if imapOk && choose {
        ghost var asked := after;
        imapOk := PersistChoice(c, imapUntil, "oauth");
        OneMoreAct(after, Save(c[METHOD := "oauth"], imapOk), address);
        after := after + [Save(c[METHOD := "oauth"], imapOk)];
        NoMoreGraphTrans(before, asked, after);
      }
    }

    /** Logs in with the password, and if that works, remembers it. */
    method TryPassword(c: Credential, imapUntil: int, ghost base: seq<Act>, ghost before: seq<Act>)
      returns (imapOk: bool, ghost after: seq<Act>)
      requires InHand(c) && kind == Microsoft && acts == base + before && OwnAccount(before, address)
      modifies this
      ensures Valid() && old(log) <= log && connection == old(connection) && acts == base + after
      ensures (imapOk <==> Proven(after)) && Via(after) == Imap && OwnAccount(after, address)
      ensures NoMoreGraph(before, after) && before <= after
      ensures |after| > |before| && after[|before|].ImapLogin? && after[|before|].sent == Fallback(c)
      ensures imapOk ==> |after| == |before| + 2 && after[|before| + 1] == Save(c[METHOD := "password"], true)
      ensures forall k :: |before| < k < |after| ==> after[k].Save?
    {
      hide LogOk, Grows, TrimSpace, EqualFold, Filled, Proven, Via, OnGraph, OwnAccount, NoMoreGraph, Fallback;
      imapOk := LogInToImap(Fallback(c));
      OneMoreAct(before, ImapLogin(Fallback(c), imapOk), address);
      after := before + [ImapLogin(Fallback(c), imapOk)];
      if imapOk {
        ghost var asked := after;
        imapOk := PersistChoice(c, imapUntil, "password");
        OneMoreAct(after, Save(c[METHOD := "password"], imapOk), address);
        after := after + [Save(c[METHOD := "password"], imapOk)];
        NoMoreGraphTrans(before, asked, after);
      }
    }

    /** The IMAP attempt of Verify: log in with what is ready, and after OAuth with the password, remembering what
        worked. */
    method VerifyOverImap(start: Credential, oauth: bool, password: bool, now: int, until: int, ghost base: seq<Act>,
                          ghost before: seq<Act>)
      returns (imapOk: bool, ghost after: seq<Act>)
      requires Valid() && acts == base + before && !(oauth && password) && (!password ==> InHand(start))
      requires (oauth ==> kind == Microsoft) && !Proven(before) && OnGraph(before, address)
      modifies this
      ensures Valid() && old(log) <= log && connection == old(connection) && acts == base + after
      ensures password ==> log == old(log) && config == old(config)
      ensures (imapOk <==> Proven(after)) && (imapOk ==> Via(after) == Imap) && OwnAccount(after, address)
      ensures NoMoreGraph(before, after) && before <= after
      ensures password || (!oauth && (kind != Gmail || Filled(start, "password"))) ==>
        |after| == |before| + 1 && after[|before|].ImapLogin? && after[|before|].sent == Fallback(start)
      ensures oauth && before == [] ==> OAuthSteps(start, now, after)
      ensures !oauth && !password && kind == Gmail && !Filled(start, "password") && before == [] ==>
        GoogleSteps(start, now, after)
      ensures oauth && Filled(start, "password") && !imapOk ==> PasswordTried(after)
      ensures oauth && !Filled(start, METHOD) && imapOk ==> Remembered(after)
    {
      hide LogOk, Grows, TrimSpace, EqualFold, PasswordFixed, Filled, Proven, Via, OnGraph, OwnAccount, NeedsRefresh,
        SameButTokens, Fallback, InHand, NoMoreGraph, Refreshable, OAuthPrepared, GooglePrepared,
        OAuthSteps, GoogleSteps;
      var c, sent, imapUntil, ready;
      c, sent, imapUntil, ready, after := PrepareImap(start, oauth, password, now, until, base, before);
      SameFields(start, c);
      FallbackKeepsPassword(c);
      PreparedGraph(before, after, address);
      imapOk := false;
      ghost var prepared := after;
      if ready {
        imapOk, after := TryLogin(c, sent, imapUntil, oauth && !Filled(c, METHOD), base, after);
        if imapOk && oauth && !Filled(c, METHOD) {
          LoginMethods();
          assert after[|prepared| + 1].Save? && Filled(after[|prepared| + 1].saved, METHOD);
        }
        NoMoreGraphTrans(before, prepared, after);
      }
      if !imapOk && oauth && Filled(c, "password") {
        ghost var asked := after;
        imapOk, after := TryPassword(c, imapUntil, base, after);
        PasswordIsFilled(c[METHOD := "password"]);
        assert imapOk ==> after[|asked| + 1].Save? && Filled(after[|asked| + 1].saved, METHOD);
        NoMoreGraphTrans(before, asked, after);
        assert after[|asked|].ImapLogin? && "access_token" !in after[|asked|].sent;
      }
      if before == [] {
        assert prepared[|before|..] == prepared;
        if oauth { OAuthAsked(start, now, prepared, ready, sent, after); }
        if !oauth && !password && kind == Gmail && !Filled(start, "password") {
          GoogleAsked(start, now, prepared, ready, sent, after);
        }
      }
    }

    /** `persistIMAPAuthMethod` when the choice is not yet made. */
    method PersistChoice(c: Credential, validUntil: int, choice: string) returns (saved: bool)
      requires InHand(c) && kind == Microsoft && (choice == "password" || (choice == "oauth" && !Filled(c, METHOD)))
      modifies this
      ensures Valid() && old(log) <= log && connection == old(connection)
      ensures !saved ==> InHand(c)
      ensures acts == old(acts) + [Save(c[METHOD := choice], saved)] && Filled(c[METHOD := choice], METHOD)
      ensures config == if saved then c[METHOD := choice] else old(config)
    {
      NotYetChosen(c, choice);
      saved := PersistImapAuthMethod(c, validUntil, choice);
    }

    // -------------------------------------------------------------- the three users of the credential

    /** The first thing Verify or ReadMessages does over Graph, if it goes there at all. */
    function GraphStart(c: Credential, now: int): bool {
      Field(c, "access_token") == "" || (parse(Field(c, "expires_at")) != 0 && parse(Field(c, "expires_at")) <= now)
    }

    /** Graph is asked only where it comes first; there it is, unless its token must be refreshed before. */
    predicate GraphRule(conn: Connection, c: Credential, now: int, tried: seq<Act>) {
      if !GraphFirst(kind, conn, hasGraph, c) then NoMoreGraph([], tried)
      else && tried != []
           && (GraphStart(c, now) ==> tried[0].Refresh? && tried[0].asked == c)
           && (!GraphStart(c, now) ==> tried[0].Profile? && tried[0].token == Field(c, "access_token"))
    }

    /** Without Graph, OAuth and Google tokens there is one login, or none if there is nothing to log in with. */
    predicate SingleRule(conn: Connection, c: Credential, tried: seq<Act>) {
      !GraphFirst(kind, conn, hasGraph, c) && !ImapOAuth(kind, conn, c) && (kind != Gmail || Filled(c, "password")) ==>
        if hasImap && (ImapPassword(kind, c) || Filled(c, "password")
                       || (kind != Microsoft && Filled(c, "access_token")))
        then |tried| == 1 && OverImap(tried[0]) && tried[0].sent == Fallback(c)
        else tried == []
    }

    /** With OAuth over IMAP the stored token is used, or refreshed first if it must be; a token that could not be
        refreshed and stored is not used. */
    predicate OAuthRule(conn: Connection, c: Credential, now: int, tried: seq<Act>) {
      ImapOAuth(kind, conn, c) && hasImap ==> OAuthSteps(c, now, tried)
    }

    predicate OAuthSteps(c: Credential, now: int, tried: seq<Act>) {
      && (!NeedsRefresh(c, now) ==> tried != [] && OverImap(tried[0]) && tried[0].sent == c)
      && (NeedsRefresh(c, now) && hasImapRefresher ==>
            && tried != [] && tried[0].Refresh? && tried[0].asked == Refreshable(c)
            && if |tried| > 1 && tried[1].Save? && tried[1].ok
               then |tried| > 2 && OverImap(tried[2]) && tried[2].sent == tried[1].saved
               else OnlyPassword(tried))
      && (NeedsRefresh(c, now) && !hasImapRefresher ==> OnlyPassword(tried))
    }

    /** A Google mailbox without a password uses its token, refreshed first if it ends within half a minute and if
        there is somebody to ask; a token that could not be refreshed and stored is not used. */
    predicate GoogleRule(c: Credential, now: int, tried: seq<Act>) {
      kind == Gmail && !Filled(c, "password") ==>
        if hasImap && (Filled(c, "access_token") || Filled(c, "refresh_token")) then GoogleSteps(c, now, tried)
        else tried == []
    }

    predicate GoogleSteps(c: Credential, now: int, tried: seq<Act>) {
      var validUntil := parse(TrimSpace(Field(c, "expires_at")));
      if Filled(c, "access_token") && (!hasGoogle || validUntil == 0 || validUntil > now + 30)
      then |tried| == 1 && OverImap(tried[0]) && tried[0].sent == c
      else if !hasGoogle || !Filled(c, "refresh_token") then tried == []
      else && tried != [] && tried[0].Refresh? && tried[0].asked == c
           && if |tried| > 1 && tried[1].Save? && tried[1].ok
              then |tried| == 3 && OverImap(tried[2]) && tried[2].sent == tried[1].saved
              else NoImap(tried)
    }

    predicate NoImap(tried: seq<Act>) {
      forall k :: 0 <= k < |tried| ==> !OverImap(tried[k])
    }

    /** What PrepareImap did from the start, and whether it is ready to ask with `sent`. */
    predicate OAuthPrepared(c: Credential, now: int, prepared: seq<Act>, ready: bool, sent: Credential) {
      if !NeedsRefresh(c, now) then ready && prepared == [] && sent == c
      else if !hasImapRefresher then !ready && prepared == []
      else && 0 < |prepared| <= 2 && prepared[0].Refresh? && prepared[0].asked == Refreshable(c)
           && (ready <==> |prepared| == 2 && prepared[1].Save? && prepared[1].ok)
           && (ready ==> sent == prepared[1].saved)
    }

    predicate GooglePrepared(c: Credential, now: int, prepared: seq<Act>, ready: bool, sent: Credential) {
      var validUntil := parse(TrimSpace(Field(c, "expires_at")));
      if !hasGoogle then prepared == [] && (ready <==> Filled(c, "access_token")) && sent == c
      else if Filled(c, "access_token") && (validUntil == 0 || validUntil > now + 30)
      then ready && prepared == [] && sent == c
      else if !Filled(c, "refresh_token") then !ready && prepared == []
      else && 0 < |prepared| <= 2 && prepared[0].Refresh? && prepared[0].asked == c
           && (ready <==> |prepared| == 2 && prepared[1].Save? && prepared[1].ok)
           && (ready ==> sent == prepared[1].saved)
    }

    lemma OAuthAsked(c: Credential, now: int, prepared: seq<Act>, ready: bool, sent: Credential, after: seq<Act>)
      requires OAuthPrepared(c, now, prepared, ready, sent) && Prepares(prepared) && prepared <= after
      requires ready ==> |after| > |prepared| && OverImap(after[|prepared|]) && after[|prepared|].sent == sent
      requires !ready && |after| > |prepared| ==>
        && OverImap(after[|prepared|]) && "access_token" !in after[|prepared|].sent
        && forall k :: |prepared| < k < |after| ==> after[k].Save?
      ensures OAuthSteps(c, now, after)
    {
      hide NeedsRefresh, Refreshable;
      forall k | 0 <= k < |prepared| ensures !OverImap(after[k]) { assert prepared[k] in prepared; }
    }

    lemma GoogleAsked(c: Credential, now: int, prepared: seq<Act>, ready: bool, sent: Credential, after: seq<Act>)
      requires GooglePrepared(c, now, prepared, ready, sent) && Prepares(prepared)
      requires if ready then |after| == |prepared| + 1 && prepared <= after && OverImap(after[|prepared|])
                             && after[|prepared|].sent == sent
               else after == prepared
      ensures GoogleSteps(c, now, after)
    {
      hide TrimSpace, Filled;
      if !ready {
        forall k | 0 <= k < |after| ensures !OverImap(after[k]) { assert prepared[k] in prepared; }
      }
    }

    /** All that Verify does before it stores its result. */
    method Attempt(now: int, ghost base: seq<Act>) returns (way: Connection, ghost tried: seq<Act>)
      requires Valid() && acts == base
      modifies this
      ensures Valid() && old(log) <= log && connection == old(connection) && acts == base + tried
      ensures ImapPassword(kind, old(config)) ==> log == old(log) && config == old(config)
      ensures way == (if Proven(tried) then Via(tried) else Auto) && (Proven(tried) ==> way != Auto)
      ensures OwnAccount(tried, address)
      ensures GraphRule(connection, old(config), now, tried) && SingleRule(connection, old(config), tried)
      ensures OAuthRule(connection, old(config), now, tried) && GoogleRule(old(config), now, tried)
      ensures hasImap && Filled(old(config), "password") && way == Auto ==> PasswordTried(tried)
      ensures ImapOAuth(kind, connection, old(config)) && !Filled(old(config), METHOD) && way != Auto ==>
        Remembered(tried)
    {
      hide LogOk, Grows, TrimSpace, EqualFold, HasFallback, PasswordFixed, Filled, NeedsRefresh, Proven, Via, OnGraph,
        OwnAccount, NoMoreGraph, SameButTokens, Fallback, Refreshable,
        OAuthSteps, GoogleSteps;
      ghost var start := config;
      var c, mailboxValidUntil := config, oauthValidUntil;
      var oauth, password := ImapOAuth(kind, connection, c), ImapPassword(kind, c);
      StartInHand(c);
      NothingTried(address);
      MergeKeeps(c, map[]);
      var first := kind == Microsoft && connection != Imap && !(oauth || password) && hasGraph
        && (Field(c, "access_token") != "" || Field(c, "refresh_token") != "");
      ghost var conn := connection;
      hide ImapOAuth, ImapPassword, InHand;
      tried := [];
      assert base + [] == base;
      var graphOk := false;
      if first {
        c, graphOk, tried := VerifyOverGraph(c, now, base);
        OnGraphIsOwn(tried, address);
        if graphOk && Field(c, "access_token") != "" {
          return MicrosoftGraph, tried;
        }
      }
      SameFields(start, c);
      FallbackIs(kind, c);
      FallbackKeepsPassword(c);
      if hasImap && (oauth || password || HasFallback(kind, c, !graphOk)) {
        var imapUntil := parse(TrimSpace(Field(c, "expires_at")));
        if imapUntil == 0 {
          imapUntil := mailboxValidUntil;
        }
        var imapOk;
        imapOk, tried := VerifyOverImap(c, oauth, password, now, imapUntil, base, tried);
        if imapOk {
          return Imap, tried;
        }
      }
      way := Auto;
    }

    /** `verified` is the nil error; it also needs the final status to be stored. `tried` is all that was done before
        that. */
    method Verify(now: int) returns (verified: bool, ghost tried: seq<Act>, ghost mark: Act)
      requires Valid()
      modifies this
      ensures Valid() && old(log) <= log && acts == old(acts) + tried + [mark] && mark.Mark?
      ensures ImapPassword(kind, old(config)) ==> log == old(log) && config == old(config)
      ensures verified <==> Proven(tried) && mark.ok
      ensures mark.connection == (if Proven(tried) then Via(tried) else Auto)
      ensures mark.status == (if Proven(tried) then Verified else VerificationFailed)
      ensures connection == if mark.ok then mark.connection else old(connection)
      ensures verified ==> connection == MicrosoftGraph || connection == Imap
      ensures OwnAccount(tried, address)
      ensures GraphRule(old(connection), old(config), now, tried) && SingleRule(old(connection), old(config), tried)
      ensures OAuthRule(old(connection), old(config), now, tried) && GoogleRule(old(config), now, tried)
      ensures hasImap && Filled(old(config), "password") && !Proven(tried) ==> PasswordTried(tried)
      ensures ImapOAuth(kind, old(connection), old(config)) && !Filled(old(config), METHOD) && Proven(tried) ==>
        Remembered(tried)
    {
      hide LogOk, Grows, TrimSpace, EqualFold, Filled, Proven, Via, OwnAccount, ImapPassword, GraphRule, SingleRule,
        OAuthRule, GoogleRule, PasswordTried, Remembered, ImapOAuth;
      var way;
      way, tried := Attempt(now, acts);
      ProvenIsVia(tried);
      var status := if way != Auto then Verified else VerificationFailed;
      var stored := UpdateMailboxVerification(way, status);
      mark := Mark(way, status, stored);
      verified := way != Auto && stored;
    }

    // -------------------------------------------------------------- reading

    /** As for Verify, but the messages are read at once. */
    predicate GraphReadRule(conn: Connection, c: Credential, now: int, tried: seq<Act>) {
      if !GraphFirst(kind, conn, hasGraph, c) then NoMoreGraph([], tried)
      else && tried != []
           && (GraphStart(c, now) ==> tried[0].Refresh? && tried[0].asked == c)
           && (!GraphStart(c, now) ==> tried[0].GraphMessages? && tried[0].token == Field(c, "access_token"))
    }

    /** The Graph attempt of ReadMessages. */
    method ReadOverGraph(start: Credential, now: int, ghost base: seq<Act>)
      returns (c: Credential, read: bool, failed: bool, ghost after: seq<Act>)
      requires InHand(start) && acts == base
      modifies this
      ensures InHand(c) && old(log) <= log && connection == old(connection) && acts == base + after
      ensures SameButTokens(start, c) && (read <==> Proven(after)) && after != []
      ensures GraphStart(start, now) ==> after[0].Refresh? && after[0].asked == start
      ensures !GraphStart(start, now) ==> after[0].GraphMessages? && after[0].token == Field(start, "access_token")
    {
      hide InHand, TrimSpace, EqualFold, Proven, Via, OnGraph, SameButTokens, OwnAccount, NoMoreGraph;
      NothingTried(address);
      MergeKeeps(start, map[]);
      assert base + [] == base;
      c, after, read, failed := start, [], false, true;
      var attempt := true;
      if GraphStart(c, now) {
        var until, refreshed;
        c, until, refreshed, attempt, after := RefreshAndSave(c, c, base, after);
        failed := !attempt;
      }
      if attempt && Field(c, "access_token") != "" {
        read := ReadGraph(Field(c, "access_token"));
        failed := !read;
        OneMoreAct(after, GraphMessages(Field(c, "access_token"), read), address);
        after := after + [GraphMessages(Field(c, "access_token"), read)];
      }
    }

    /** Reads with the password, and if that works, remembers it. */
    method ReadWithPassword(c: Credential, imapUntil: int, ghost base: seq<Act>, ghost before: seq<Act>)
      returns (read: bool, ghost after: seq<Act>)
      requires InHand(c) && kind == Microsoft && acts == base + before
      modifies this
      ensures Valid() && old(log) <= log && connection == old(connection) && acts == base + after
      ensures (read <==> Proven(after)) && NoMoreGraph(before, after) && before <= after
      ensures |after| > |before| && after[|before|].ImapMessages? && after[|before|].sent == Fallback(c)
      ensures read ==> |after| == |before| + 2 && after[|before| + 1] == Save(c[METHOD := "password"], true)
      ensures forall k :: |before| < k < |after| ==> after[k].Save?
    {
      hide LogOk, Grows, TrimSpace, EqualFold, Filled, Proven, Via, OnGraph, OwnAccount, NoMoreGraph, Fallback;
      read := ReadImap(Fallback(c));
      OneMoreAct(before, ImapMessages(Fallback(c), read), address);
      after := before + [ImapMessages(Fallback(c), read)];
      if read {
        ghost var asked := after;
        read := PersistChoice(c, imapUntil, "password");
        OneMoreAct(after, Save(c[METHOD := "password"], read), address);
        after := after + [Save(c[METHOD := "password"], read)];
        NoMoreGraphTrans(before, asked, after);
      }
    }

    /** The IMAP attempt of ReadMessages. */
    method ReadOverImap(start: Credential, oauth: bool, password: bool, now: int, mailboxUntil: int,
                        ghost base: seq<Act>, ghost before: seq<Act>)
      returns (read: bool, ghost after: seq<Act>)
      requires Valid() && acts == base + before && !(oauth && password) && (!password ==> InHand(start))
      requires (oauth ==> kind == Microsoft) && !Proven(before)
      modifies this
      ensures Valid() && old(log) <= log && connection == old(connection) && acts == base + after
      ensures password ==> log == old(log) && config == old(config)
      ensures (read <==> Proven(after)) && NoMoreGraph(before, after) && before <= after
      ensures password || (!oauth && (kind != Gmail || Filled(start, "password"))) ==>
        |after| == |before| + 1 && after[|before|].ImapMessages? && after[|before|].sent == Fallback(start)
      ensures oauth && before == [] ==> OAuthSteps(start, now, after)
      ensures !oauth && !password && kind == Gmail && !Filled(start, "password") && before == [] ==>
        GoogleSteps(start, now, after)
      ensures oauth && Filled(start, "password") && !read ==> PasswordTried(after)
    {
      hide LogOk, Grows, TrimSpace, EqualFold, PasswordFixed, Filled, Proven, Via, OnGraph, OwnAccount, NeedsRefresh,
        SameButTokens, Fallback, InHand, NoMoreGraph, Refreshable, Prepares, OAuthPrepared, GooglePrepared,
        OAuthSteps, GoogleSteps;
      var c, sent, until, ready;
      c, sent, until, ready, after := PrepareImap(start, oauth, password, now, 0, base, before);
      SameFields(start, c);
      FallbackKeepsPassword(c);
      PreparingIsNoGraph(before, after);
      read := false;
      ghost var prepared := after;
      if ready {
        read := ReadImap(sent);
        OneMoreAct(after, ImapMessages(sent, read), address);
        after := after + [ImapMessages(sent, read)];
        NoMoreGraphTrans(before, prepared, after);
      }
      if !read && oauth && Filled(c, "password") {
        ghost var asked := after;
        var validUntil := parse(TrimSpace(Field(c, "expires_at")));
        read, after := ReadWithPassword(c, if validUntil == 0 then mailboxUntil else validUntil, base, after);
        NoMoreGraphTrans(before, asked, after);
        assert after[|asked|].ImapMessages? && "access_token" !in after[|asked|].sent;
      }
      if before == [] {
        assert prepared[|before|..] == prepared;
        if oauth { OAuthAsked(start, now, prepared, ready, sent, after); }
        if !oauth && !password && kind == Gmail && !Filled(start, "password") {
          GoogleAsked(start, now, prepared, ready, sent, after);
        }
      }
    }

    /** `read` is the nil error. */
    method ReadMessages(now: int) returns (read: bool, ghost tried: seq<Act>)
      requires Valid()
      modifies this
      ensures Valid() && old(log) <= log && connection == old(connection) && acts == old(acts) + tried
      ensures ImapPassword(kind, old(config)) ==> log == old(log) && config == old(config)
      ensures read <==> Proven(tried)
      ensures GraphReadRule(connection, old(config), now, tried) && SingleRule(connection, old(config), tried)
      ensures OAuthRule(connection, old(config), now, tried) && GoogleRule(old(config), now, tried)
      ensures hasImap && Filled(old(config), "password") && !read ==> PasswordTried(tried)
    {
      hide LogOk, Grows, TrimSpace, EqualFold, HasFallback, PasswordFixed, Filled, NeedsRefresh, Proven, Via, OnGraph,
        OwnAccount, NoMoreGraph, SameButTokens, Fallback, Refreshable,
        OAuthSteps, GoogleSteps;
      ghost var start, base := config, acts;
      var c, mailboxValidUntil := config, oauthValidUntil;
      var oauth, password := ImapOAuth(kind, connection, c), ImapPassword(kind, c);
      StartInHand(c);
      NothingTried(address);
      MergeKeeps(c, map[]);
      var first := kind == Microsoft && connection != Imap && !(oauth || password) && hasGraph
        && (Field(c, "access_token") != "" || Field(c, "refresh_token") != "");
      hide ImapOAuth, ImapPassword, InHand;
      tried := [];
      assert base + [] == base;
      var failed := true;
      if first {
        c, read, failed, tried := ReadOverGraph(c, now, base);
        if read {
          return;
        }
      }
      SameFields(start, c);
      FallbackIs(kind, c);
      FallbackKeepsPassword(c);
      read := false;
      if hasImap && (oauth || password || HasFallback(kind, c, failed)) {
        read, tried := ReadOverImap(c, oauth, password, now, mailboxValidUntil, base, tried);
      }
    }

    // -------------------------------------------------------------- polling

    /** A poll uses IMAP for these, Graph for the rest. */
    predicate UsesImap(conn: Connection, c: Credential) {
      kind != Microsoft || conn == Imap || ImapOAuth(kind, conn, c) || ImapPassword(kind, c)
    }

    /** The stored token ends within five minutes. */
    predicate NeedsPollRefresh(c: Credential, validUntil: int, now: int) {
      Field(c, "refresh_token") != "" && (Field(c, "access_token") == "" || validUntil - now < 300)
    }

    /** The end of the stored token, by the credential or else by the mailbox's row. */
    function PollUntil(c: Credential, mailboxUntil: int): int {
      if parse(Field(c, "expires_at")) == 0 then mailboxUntil else parse(Field(c, "expires_at"))
    }

    /** A poll asks over one way only, refreshes a token that ends soon first where it has one to refresh, and asks with
        what it has otherwise. */
    predicate PollRule(conn: Connection, c: Credential, mailboxUntil: int, now: int, tried: seq<Act>) {
      var oauth := ImapOAuth(kind, conn, c);
      var refresh := NeedsPollRefresh(c, PollUntil(c, mailboxUntil), now);
      && (UsesImap(conn, c) ==> forall a :: a in tried ==> !OverGraph(a))
      && (!UsesImap(conn, c) ==> forall a :: a in tried ==> !OverImap(a))
      && ((oauth || !UsesImap(conn, c)) && refresh && hasGraph ==>
            tried != [] && tried[0].Refresh? && tried[0].asked == if oauth then Refreshable(c) else c)
      && (UsesImap(conn, c) && !(oauth && refresh) ==>
            tried != [] && tried[0].ImapMessages? && tried[0].sent == if oauth then c else Fallback(c))
      && (!UsesImap(conn, c) && !refresh ==>
            if hasGraph && Field(c, "access_token") != ""
            then |tried| == 1 && tried[0].GraphMessages? && tried[0].token == Field(c, "access_token")
            else tried == [])
    }

    /** The token refresh at the start of a poll; `sound` if nothing stands against asking for mail. Over Graph it does
        not matter whether the new token could be stored. */
    method PollRefresh(start: Credential, oauth: bool, useImap: bool, validUntil: int, now: int, ghost base: seq<Act>)
      returns (c: Credential, until: int, sound: bool, ghost after: seq<Act>)
      requires Valid() && acts == base && (oauth ==> useImap && kind == Microsoft)
      requires oauth || !useImap ==> InHand(start)
      modifies this
      ensures Valid() && old(log) <= log && connection == old(connection) && acts == base + after
      ensures oauth || !useImap ==> InHand(c)
      ensures SameButTokens(start, c) && !Proven(after) && Prepares(after)
      ensures (useImap && !oauth) || !NeedsPollRefresh(start, validUntil, now) ==>
        c == start && sound && after == [] && log == old(log) && config == old(config)
      ensures (oauth || !useImap) && NeedsPollRefresh(start, validUntil, now) ==>
        if !hasGraph then !sound && after == []
        else && after != [] && after[0].Refresh? && after[0].asked == (if oauth then Refreshable(start) else start)
             && (oauth ==> (sound <==> |after| == 2 && after[1] == Save(c, true)))
             && (!oauth ==> (sound <==> after[0].answer.Some?))
    {
      hide LogOk, Grows, TrimSpace, EqualFold, PasswordFixed, Proven, Via, OnGraph, OwnAccount, NoMoreGraph,
        SameButTokens, Refreshable;
      NothingTried(address);
      MergeKeeps(start, map[]);
      assert base + [] == base;
      c, until, sound, after := start, validUntil, true, [];
      var ends := Field(c, "access_token") == "" || validUntil - now < 5 * 60;
      if (oauth || !useImap) && Field(c, "refresh_token") != "" && ends {
        sound := false;
        if hasGraph {
          var refreshed, saved;
          c, until, refreshed, saved, after :=
            RefreshAndSave(c, if oauth then Refreshable(c) else c, base, after);
          until := if refreshed then until else validUntil;
          sound := if oauth then saved else refreshed;
        }
      }
    }

    /** The credential part of pollMailbox. A poll over Graph never tries the password after all: the branch that would
        only changes which method the failure is reported under. */
    method PollCredential(now: int) returns (read: bool, ghost tried: seq<Act>, ghost marks: seq<Act>)
      requires Valid()
      modifies this
      ensures Valid() && old(log) <= log && acts == old(acts) + tried + marks
      ensures ImapPassword(kind, old(config)) ==> log == old(log) && config == old(config)
      ensures read <==> Proven(tried)
      ensures PollRule(old(connection), old(config), old(oauthValidUntil), now, tried)
      ensures hasImap && ImapOAuth(kind, old(connection), old(config)) && Filled(old(config), "password") && !read ==>
        PasswordTried(tried)
      ensures !read ==>
        |marks| == 1 && marks[0].Mark? && marks[0].status == VerificationFailed
        && marks[0].connection == if UsesImap(old(connection), old(config)) || Field(old(config), "password") != ""
                                  then Imap else MicrosoftGraph
      ensures read && kind == Microsoft && UsesImap(old(connection), old(config)) ==>
        |marks| == 1 && marks[0].Mark? && marks[0].status == Verified && marks[0].connection == Imap
      ensures read && !(kind == Microsoft && UsesImap(old(connection), old(config))) ==> marks == []
      ensures connection == if marks != [] && marks[0].ok then marks[0].connection else old(connection)
    {
      hide LogOk, Grows, TrimSpace, EqualFold, PasswordFixed, Filled, Proven, Via, OnGraph, OwnAccount, NoMoreGraph,
        SameButTokens, Fallback, Refreshable, PollRule, NeedsPollRefresh, Prepares;
      ghost var base, start, conn, mailboxUntil := acts, config, connection, oauthValidUntil;
      var c := config;
      var oauth, password := ImapOAuth(kind, connection, c), ImapPassword(kind, c);
      var useImap := !(kind == Microsoft) || connection == Imap || oauth || password;
      StartInHand(c);
      hide ImapOAuth, ImapPassword, InHand, UsesImap;
      var validUntil := parse(Field(c, "expires_at"));
      if validUntil == 0 {
        validUntil := oauthValidUntil;
      }
      assert validUntil == PollUntil(c, oauthValidUntil);
      hide PollUntil;
      var until, sound;
      c, until, sound, tried := PollRefresh(c, oauth, useImap, validUntil, now, base);
      SameFields(start, c);
      FallbackKeepsPassword(c);
      ghost var refreshed := tried;
      read := false;
      if sound {
        read, tried := PollOnce(c, oauth, useImap, base, tried);
      }
      PollFollowsRule(conn, start, c, mailboxUntil, now, sound, refreshed, tried);
      if !read && oauth && Filled(c, "password") && hasImap {
        ghost var asked := tried;
        read, tried := ReadWithPassword(c, until, base, tried);
        assert tried[|asked|].ImapMessages? && "access_token" !in tried[|asked|].sent;
        PollRuleStays(conn, start, mailboxUntil, now, asked, tried);
      }
      marks := [];
      if !read || (kind == Microsoft && useImap) {
        var way := if read || useImap || Field(c, "password") != "" then Imap else MicrosoftGraph;
        var status := if read then Verified else VerificationFailed;
        var stored := UpdateMailboxVerification(way, status);
        marks := [Mark(way, status, stored)];
      }
    }

    /** The one question of a poll. */
    method PollOnce(c: Credential, oauth: bool, useImap: bool, ghost base: seq<Act>, ghost before: seq<Act>)
      returns (read: bool, ghost after: seq<Act>)
      requires acts == base + before && !Proven(before)
      modifies this`acts
      ensures acts == base + after && (read <==> Proven(after))
      ensures if useImap
              then |after| == |before| + 1 && after[..|before|] == before && after[|before|].ImapMessages?
                   && after[|before|].sent == if oauth then c else Fallback(c)
              else if hasGraph && Field(c, "access_token") != ""
              then |after| == |before| + 1 && after[..|before|] == before && after[|before|].GraphMessages?
                   && after[|before|].token == Field(c, "access_token")
              else after == before
    {
      hide Proven, Via, OnGraph, OwnAccount, NoMoreGraph, EqualFold;
      read, after := false, before;
      if useImap {
        var sent := if oauth then c else Fallback(c);
        read := ReadImap(sent);
        OneMoreAct(before, ImapMessages(sent, read), address);
        after := before + [ImapMessages(sent, read)];
      } else if hasGraph && Field(c, "access_token") != "" {
        read := ReadGraph(Field(c, "access_token"));
        OneMoreAct(before, GraphMessages(Field(c, "access_token"), read), address);
        after := before + [GraphMessages(Field(c, "access_token"), read)];
      }
    }

    lemma PollFollowsRule(conn: Connection, start: Credential, c: Credential, mailboxUntil: int, now: int, sound: bool,
                          refreshed: seq<Act>, tried: seq<Act>)
      requires Prepares(refreshed)
      requires var oauth, useImap := ImapOAuth(kind, conn, start), UsesImap(conn, start);
        var refresh := (oauth || !useImap) && NeedsPollRefresh(start, PollUntil(start, mailboxUntil), now);
        && (!refresh ==> c == start && sound && refreshed == [])
        && (refresh && hasGraph ==>
              && refreshed != [] && refreshed[0].Refresh?
              && refreshed[0].asked == if oauth then Refreshable(start) else start)
        && (refresh && !hasGraph ==> refreshed == [] && !sound)
        && (!sound ==> tried == refreshed)
        && (sound && useImap ==>
              |tried| == |refreshed| + 1 && tried[..|refreshed|] == refreshed && tried[|refreshed|].ImapMessages?
              && tried[|refreshed|].sent == if oauth then c else Fallback(c))
        && (sound && !useImap && hasGraph && Field(c, "access_token") != "" ==>
              |tried| == |refreshed| + 1 && tried[..|refreshed|] == refreshed && tried[|refreshed|].GraphMessages?
              && tried[|refreshed|].token == Field(c, "access_token"))
        && (sound && !useImap && !(hasGraph && Field(c, "access_token") != "") ==> tried == refreshed)
      ensures PollRule(conn, start, mailboxUntil, now, tried)
    {
      assert ImapOAuth(kind, conn, start) ==> UsesImap(conn, start);
      hide ImapOAuth, UsesImap, NeedsPollRefresh, PollUntil, Fallback, Refreshable;
      if tried != refreshed { assert tried == refreshed + [tried[|refreshed|]]; }
    }

    /** More over IMAP in the end changes nothing about it. */
    lemma PollRuleStays(conn: Connection, c: Credential, mailboxUntil: int, now: int, before: seq<Act>, after: seq<Act>)
      requires PollRule(conn, c, mailboxUntil, now, before) && NoMoreGraph(before, after)
      requires ImapOAuth(kind, conn, c) && (before == [] ==> NeedsPollRefresh(c, PollUntil(c, mailboxUntil), now))
      requires before == [] ==> !hasGraph
      ensures PollRule(conn, c, mailboxUntil, now, after)
    {
      hide ImapOAuth, NeedsPollRefresh, PollUntil, Fallback, Refreshable;
    }
  }
}
