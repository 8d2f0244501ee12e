/** Who a request acts for: the per-client token table, the bearer check and `_client_id`. */
module Auth {
  import opened Wrappers
  import opened Ascii

  const BEARER := "Bearer "

  /** One member of the token file; a value that is not a string is `NotText`. */
  datatype Token = Text(text: string) | NotText

  datatype TokenFile = NotAnObject | Clients(items: seq<(string, Token)>)

  datatype ConfigError = NoClients | BadClientId | BadToken | DuplicateToken

  predicate IdChar(c: char) {
    IsLetter(c) || '0' <= c <= '9' || c == '.' || c == '_' || c == '-'
  }

  predicate TokenChar(c: char) {
    IdChar(c) || c == '~' || c == '+' || c == '/' || c == '='
  }

  predicate GoodId(id: string) {
    1 <= |id| <= 64 && forall i | 0 <= i < |id| :: IdChar(id[i])
  }

  predicate GoodToken(t: Token) {
    t.Text? && |t.text| >= 32 && forall i | 0 <= i < |t.text| :: TokenChar(t.text[i])
  }

  /** The authorization header a client with this token sends. */
  function HeaderOf(t: Token): string
    requires t.Text?
  {
    BEARER + t.text
  }

  /** A parsed JSON object: no key occurs twice. */
  ghost predicate DistinctIds(items: seq<(string, Token)>) {
    forall i, j | 0 <= i < j < |items| :: items[i].0 != items[j].0
  }

  ghost predicate ItemOk(items: seq<(string, Token)>, i: nat)
    requires i < |items|
  {
    && GoodId(items[i].0) && GoodToken(items[i].1)
    && forall j | 0 <= j < i :: items[j].1 != items[i].1
  }

  /** What the loop objects to in member `i`, first the id, then the token, then its uniqueness. */
  ghost function ItemFault(items: seq<(string, Token)>, i: nat): Option<ConfigError>
    requires i < |items|
  {
    if !GoodId(items[i].0) then Some(BadClientId)
    else if !GoodToken(items[i].1) then Some(BadToken)
    else if exists j :: 0 <= j < i && items[j].1 == items[i].1 then Some(DuplicateToken)
    else None
  }

  ghost predicate AllOk(items: seq<(string, Token)>, n: nat)
    requires n <= |items|
  {
    forall i | 0 <= i < n :: ItemOk(items, i)
  }

  /** The table maps every client's header to that client and holds nothing else. */
  ghost predicate Tabulates(items: seq<(string, Token)>, n: nat, table: map<string, string>)
    requires n <= |items|
  {
    && (forall i | 0 <= i < n :: items[i].1.Text? && HeaderOf(items[i].1) in table && table[HeaderOf(items[i].1)] == items[i].0)
    && (forall h | h in table :: exists i :: 0 <= i < n && items[i].1.Text? && HeaderOf(items[i].1) == h && items[i].0 == table[h])
  }

  /** The dictionary after the first `n` members of the file. */
  function TableOf(items: seq<(string, Token)>, n: nat): map<string, string>
    requires n <= |items|
  {
    if n == 0 then map[]
    else if items[n - 1].1.Text? then TableOf(items, n - 1)[HeaderOf(items[n - 1].1) := items[n - 1].0]
    else TableOf(items, n - 1)
  }

  /**
   Accepts exactly the files in which every id and token is well formed and no two
   clients share a token; otherwise reports what is wrong with the first bad member.
   */
  method LoadClientTokens(file: TokenFile) returns (r: Result<map<string, string>, ConfigError>)
    requires file.Clients? ==> DistinctIds(file.items)
    ensures r.Ok? <==> file.Clients? && file.items != [] && AllOk(file.items, |file.items|)
    ensures r.Ok? ==> r.value == TableOf(file.items, |file.items|)
    ensures r == Err(NoClients) <==> file.NotAnObject? || file.items == []
    ensures r.Err? && r.error != NoClients ==>
              exists i :: 0 <= i < |file.items| && AllOk(file.items, i) && ItemFault(file.items, i) == Some(r.error)
    ensures r == Err(BadClientId) ==> exists i :: 0 <= i < |file.items| && !GoodId(file.items[i].0)
    ensures r == Err(BadToken) ==> exists i :: 0 <= i < |file.items| && GoodId(file.items[i].0) && !GoodToken(file.items[i].1)
    ensures r == Err(DuplicateToken) ==> exists i, j :: 0 <= j < i < |file.items| && file.items[j].1 == file.items[i].1
  {
    if file.NotAnObject? || file.items == [] {
      return Err(NoClients);
    }
    var items := file.items;
    var table: map<string, string> := map[];
    for i := 0 to |items|
      invariant AllOk(items, i) && table == TableOf(items, i)
    {
      var id, token := items[i].0, items[i].1;
      if !GoodId(id) {
        assert !ItemOk(items, i);
        assert AllOk(items, i) && ItemFault(items, i) == Some(BadClientId);
        return Err(BadClientId);
      }
      if !GoodToken(token) {
        assert !ItemOk(items, i);
        assert AllOk(items, i) && ItemFault(items, i) == Some(BadToken);
        return Err(BadToken);
      }
      var header := HeaderOf(token);
      TableHoldsEarlierTokens(items, i);
      if header in table {
        assert !ItemOk(items, i);
        assert AllOk(items, i) && ItemFault(items, i) == Some(DuplicateToken);
        return Err(DuplicateToken);
      }
      assert ItemOk(items, i);
      table := table[header := id];
    }
    return Ok(table);
  }

  /** While every token so far is text, a header is in the dictionary iff an earlier client has its token. */
  lemma {:induction false} TableHoldsEarlierTokens(items: seq<(string, Token)>, n: nat)
    requires n <= |items| && AllOk(items, n)
    ensures forall t: Token | t.Text? :: HeaderOf(t) in TableOf(items, n) <==> exists j :: 0 <= j < n && items[j].1 == t
  {
    if n > 0 {
      TableHoldsEarlierTokens(items, n - 1);
      assert ItemOk(items, n - 1);
      forall t: Token | t.Text?
        ensures HeaderOf(t) in TableOf(items, n) <==> exists j :: 0 <= j < n && items[j].1 == t
      {
        if HeaderOf(t) == HeaderOf(items[n - 1].1) {
          HeaderDeterminesToken(t, items[n - 1].1);
        }
      }
    }
  }

  lemma TableStep(items: seq<(string, Token)>, n: nat)
    requires n < |items| && AllOk(items, n + 1)
    ensures AllOk(items, n) && items[n].1.Text? && HeaderOf(items[n].1) !in TableOf(items, n)
    ensures TableOf(items, n + 1) == TableOf(items, n)[HeaderOf(items[n].1) := items[n].0]
  {
    assert ItemOk(items, n);
    TableHoldsEarlierTokens(items, n);
  }

  /** An accepted file's table holds one entry per client. */
  lemma {:induction false} OneEntryPerClient(items: seq<(string, Token)>, n: nat)
    requires n <= |items| && AllOk(items, n)
    ensures |TableOf(items, n)| == n
  {
    if n > 0 {
      TableStep(items, n - 1);
      OneEntryPerClient(items, n - 1);
    }
  }

  /** Every one of the first `n` clients brings a header that is not in the dictionary yet. */
  ghost predicate BringsNewHeader(items: seq<(string, Token)>, i: nat)
    requires i < |items|
  {
    items[i].1.Text? && HeaderOf(items[i].1) !in TableOf(items, i)
  }

  lemma {:induction false} TableOfNewHeadersIsExact(items: seq<(string, Token)>, n: nat)
    requires n <= |items| && forall i | 0 <= i < n :: BringsNewHeader(items, i)
    ensures Tabulates(items, n, TableOf(items, n))
  {
    if n > 0 {
      TableOfNewHeadersIsExact(items, n - 1);
      assert BringsNewHeader(items, n - 1);
      AddClient(items, n - 1, TableOf(items, n - 1), TableOf(items, n));
    }
  }

  /** An accepted file's table maps each client's header to that client, and holds nothing else. */
  lemma LoadedTableIsExact(items: seq<(string, Token)>, n: nat)
    requires n <= |items| && AllOk(items, n)
    ensures Tabulates(items, n, TableOf(items, n))
  {
    forall i | 0 <= i < n
      ensures BringsNewHeader(items, i)
    {
      TableStep(items, i);
    }
    TableOfNewHeadersIsExact(items, n);
  }

  lemma AddClient(items: seq<(string, Token)>, n: nat, table: map<string, string>, next: map<string, string>)
    requires n < |items| && Tabulates(items, n, table) && items[n].1.Text? && HeaderOf(items[n].1) !in table
    requires next == table[HeaderOf(items[n].1) := items[n].0]
    ensures Tabulates(items, n + 1, next)
  {
    var header := HeaderOf(items[n].1);
    forall h | h in next
      ensures exists i :: 0 <= i < n + 1 && items[i].1.Text? && HeaderOf(items[i].1) == h && items[i].0 == next[h]
    {
      if h == header {
        assert HeaderOf(items[n].1) == h && items[n].0 == next[h];
      } else {
        var i :| 0 <= i < n && items[i].1.Text? && HeaderOf(items[i].1) == h && items[i].0 == table[h];
      }
    }
  }

  lemma HeaderDeterminesToken(a: Token, b: Token)
    requires a.Text? && b.Text? && HeaderOf(a) == HeaderOf(b)
    ensures a == b
  {
    assert a.text == HeaderOf(a)[|BEARER|..] && b.text == HeaderOf(b)[|BEARER|..];
  }

  /** Each header leads to one client and each client has one header. */
  lemma TokenTableIsInjective(items: seq<(string, Token)>, table: map<string, string>, g: string, h: string)
    requires DistinctIds(items) && Tabulates(items, |items|, table)
    requires g in table && h in table && table[g] == table[h]
    ensures g == h
  {
    var i :| 0 <= i < |items| && items[i].1.Text? && HeaderOf(items[i].1) == g && items[i].0 == table[g];
    var j :| 0 <= j < |items| && items[j].1.Text? && HeaderOf(items[j].1) == h && items[j].0 == table[h];
    assert i == j;
  }

  // ---------------------------------------------------------------- requests

  datatype Login =
    | Stdio(fallback: string)
    | SharedToken(header: string, fallback: string)
    | PerClient(credentials: map<string, string>)

  /** What the transport knows of a request: header names and values, and the caller's own `client_id`. */
  datatype Origin = Origin(isHttp: bool, headers: seq<(string, string)>, claimed: Option<string>)

  function Lower(s: string): string {
    seq(|s|, i requires 0 <= i < |s| => Fold(s[i]))
  }

  /** The values of every header named `authorization`, whatever its case, in order. */
  function Authorizations(headers: seq<(string, string)>): seq<string> {
    if headers == [] then []
    else (if Lower(headers[0].0) == "authorization" then [headers[0].1] else []) + Authorizations(headers[1..])
  }

  datatype Decision = PassThrough | Unauthorized | Accepted(user: Option<string>)

  /** The bearer check: compares the one authorization header with every credential in turn. */
  method Authenticate(credentials: map<string, Option<string>>, origin: Origin) returns (d: Decision)
    ensures !origin.isHttp ==> d == PassThrough
    ensures origin.isHttp ==>
              var found := Authorizations(origin.headers);
              d == if |found| == 1 && found[0] in credentials then Accepted(credentials[found[0]]) else Unauthorized
  {
    if !origin.isHttp {
      return PassThrough;
    }
    var headers := Authorizations(origin.headers);
    var matches: seq<Option<string>> := [];
    var rest := credentials.Keys;
    while rest != {}
      invariant rest <= credentials.Keys
      invariant matches == (if |headers| == 1 && headers[0] in credentials && headers[0] !in rest then [credentials[headers[0]]] else [])
      decreases |rest|
    {
      var header :| header in rest;
      if |headers| == 1 && headers[0] == header {
        matches := matches + [credentials[header]];
      }
      rest := rest - {header};
    }
    if matches == [] {
      return Unauthorized;
    }
    return Accepted(matches[0]);
  }

  /** The attribution of a request, or None if it never reaches a tool or the tool refuses it. */
  function Identify(login: Login, origin: Origin): Option<string> {
    var found := Authorizations(origin.headers);
    match login
    case Stdio(fallback) => Some(SelfReported(origin, fallback))
    case SharedToken(header, fallback) =>
      if origin.isHttp && found == [header] then Some(SelfReported(origin, fallback)) else None
    case PerClient(credentials) =>
      if origin.isHttp && |found| == 1 && found[0] in credentials then Some(credentials[found[0]]) else None
  }

  function SelfReported(origin: Origin, fallback: string): string {
    if origin.claimed.Some? && origin.claimed.value != "" then origin.claimed.value else fallback
  }

  /** The bearer check followed by `_client_id` gives every request the attribution `Identify` says. */
  method Attribute(login: Login, origin: Origin) returns (client: Option<string>)
    ensures client == Identify(login, origin)
  {
    match login {
      case Stdio(fallback) =>
        return Some(SelfReported(origin, fallback));
      case SharedToken(header, fallback) =>
        var decision := Authenticate(map[header := None], origin);
        if decision.Accepted? {
          return Some(SelfReported(origin, fallback));
        }
        return None;
      case PerClient(credentials) =>
        var table: map<string, Option<string>> := map h | h in credentials :: Some(credentials[h]);
        var decision := Authenticate(table, origin);
        if decision.Accepted? {
          return decision.user;
        }
        return None;
    }
  }

  /**
   With per-client tokens a request acts for a client exactly when its only
   authorization header carries that client's token; what it claims plays no part.
   */
  lemma IdentityIsTheTokenHolder(items: seq<(string, Token)>, table: map<string, string>, origin: Origin, id: string)
    requires DistinctIds(items) && Tabulates(items, |items|, table)
    ensures Identify(PerClient(table), origin) == Some(id)
       <==> origin.isHttp && exists i :: 0 <= i < |items| && items[i].0 == id && items[i].1.Text?
                                       && Authorizations(origin.headers) == [HeaderOf(items[i].1)]
  {
    var found := Authorizations(origin.headers);
    if origin.isHttp && |found| == 1 {
      assert found == [found[0]];
      if found[0] in table && table[found[0]] == id {
        var i :| 0 <= i < |items| && items[i].1.Text? && HeaderOf(items[i].1) == found[0] && items[i].0 == table[found[0]];
        assert items[i].0 == id && found == [HeaderOf(items[i].1)];
      }
      if i :| 0 <= i < |items| && items[i].0 == id && items[i].1.Text? && found == [HeaderOf(items[i].1)] {
        assert HeaderOf(items[i].1) in table;
      }
    }
  }

  // ---------------------------------------------------------------- what this means for a request

  /** A header that browsers and clients would write, and the server would read whatever its case. */
  lemma AuthorizationHeader(value: string)
    ensures Authorizations([("Authorization", value)]) == [value]
    ensures Authorizations([("authorization", value)]) == [value]
    ensures Authorizations([("AUTHORIZATION", value)]) == [value]
    ensures Authorizations([("Authorisation", value)]) == []
  {
    NameSpelledOut();
    OneHeader("Authorization", value);
    OneHeader("authorization", value);
    OneHeader("AUTHORIZATION", value);
    OneHeader("Authorisation", value);
  }

  lemma OneHeader(name: string, value: string)
    ensures Authorizations([(name, value)]) == if Lower(name) == "authorization" then [value] else []
  {
    assert [(name, value)][1..] == [];
  }

  lemma NameSpelledOut()
    ensures Lower("Authorization") == "authorization" == Lower("authorization") == Lower("AUTHORIZATION")
    ensures Lower("Authorisation") != "authorization"
  {
    assert Lower("Authorisation")[7] == 's';
  }

  /**
   With the table of an accepted file, a request whose one authorization header is "Bearer " and a
   client's token acts for that client, whatever it claims.
   */
  lemma BearerTokenActsForItsClient(items: seq<(string, Token)>, i: nat, claimed: Option<string>)
    requires DistinctIds(items) && AllOk(items, |items|) && i < |items|
    ensures items[i].1.Text?
    ensures Identify(PerClient(TableOf(items, |items|)), Origin(true, [("Authorization", "Bearer " + items[i].1.text)], claimed))
         == Some(items[i].0)
  {
    assert ItemOk(items, i);
    LoadedTableIsExact(items, |items|);
    AuthorizationHeader("Bearer " + items[i].1.text);
    IdentityIsTheTokenHolder(items, TableOf(items, |items|), Origin(true, [("Authorization", "Bearer " + items[i].1.text)], claimed), items[i].0);
  }

  /** The value is "Bearer " and a listed token. */
  ghost predicate IsBearerOf(items: seq<(string, Token)>, value: string) {
    exists i :: 0 <= i < |items| && items[i].1.Text? && value == "Bearer " + items[i].1.text
  }

  lemma TableHoldsBearers(items: seq<(string, Token)>, table: map<string, string>, value: string)
    requires Tabulates(items, |items|, table)
    ensures value in table ==> IsBearerOf(items, value)
  {
    if value in table {
      var i :| 0 <= i < |items| && items[i].1.Text? && HeaderOf(items[i].1) == value && items[i].0 == table[value];
    }
  }

  lemma OneHeaderLooksUp(table: map<string, string>, value: string, claimed: Option<string>)
    ensures Identify(PerClient(table), Origin(true, [("Authorization", value)], claimed))
         == if value in table then Some(table[value]) else None
  {
    AuthorizationHeader(value);
  }

  /** Any other header value, the bare token for one, acts for nobody. */
  lemma OtherHeadersActForNobody(items: seq<(string, Token)>, value: string, claimed: Option<string>)
    requires DistinctIds(items) && AllOk(items, |items|) && !IsBearerOf(items, value)
    ensures Identify(PerClient(TableOf(items, |items|)), Origin(true, [("Authorization", value)], claimed)) == None
  {
    var table := TableOf(items, |items|);
    LoadedTableIsExact(items, |items|);
    TableHoldsBearers(items, table, value);
    OneHeaderLooksUp(table, value, claimed);
  }

  lemma TwoHeaders(value: string, other: string)
    ensures |Authorizations([("Authorization", value), ("authorization", other)])| == 2
  {
    var two := [("Authorization", value), ("authorization", other)];
    assert two[1..] == [("authorization", other)];
    NameSpelledOut();
    OneHeader("authorization", other);
  }

  /** And so do two authorization headers, whatever they hold, or none. */
  lemma OneHeaderIsNeeded(table: map<string, string>, value: string, other: string, claimed: Option<string>)
    ensures Identify(PerClient(table), Origin(true, [("Authorization", value), ("authorization", other)], claimed)) == None
    ensures Identify(PerClient(table), Origin(true, [], claimed)) == None
  {
    TwoHeaders(value, other);
  }

  /** Without a token, or with one that all share, a caller is who it says it is, or else the configured default. */
  lemma OthersNameThemselves(origin: Origin, header: string, fallback: string)
    ensures origin.claimed == Some("bob") ==> Identify(Stdio(fallback), origin) == Some("bob")
    ensures origin.claimed == None || origin.claimed == Some("") ==> Identify(Stdio(fallback), origin) == Some(fallback)
    ensures origin.isHttp && Authorizations(origin.headers) == [header] ==>
              Identify(SharedToken(header, fallback), origin) == Identify(Stdio(fallback), origin)
    ensures !origin.isHttp || Authorizations(origin.headers) != [header] ==>
              Identify(SharedToken(header, fallback), origin) == None
  {
  }

  /** What ids and tokens may be made of, and how long they are. */
  lemma IdsAndTokens(id: string, token: string)
    ensures GoodId(id) ==> 1 <= |id| <= 64
    ensures GoodToken(Text(token)) ==> |token| >= 32
    ensures 1 <= |id| <= 64 && (forall i | 0 <= i < |id| :: id[i] in "azAZ09._-") ==> GoodId(id)
    ensures |token| >= 32 && (forall i | 0 <= i < |token| :: token[i] in "azAZ09._-~+/=") ==> GoodToken(Text(token))
    ensures (exists i :: 0 <= i < |id| && id[i] in " /=~+:@[`{") ==> !GoodId(id)
    ensures (exists i :: 0 <= i < |token| && token[i] in " :@[`{") ==> !GoodToken(Text(token))
    ensures !GoodToken(NotText)
  {
  }
}
