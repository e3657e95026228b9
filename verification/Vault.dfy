/** The versioned secret table: rows of sealed versions, and the plain table they stand for (secrets.go). */
module Vault {
  import opened Results
  import opened Envelopes
  import Paths

  /** A row of `secrets` with its rows of `secret_versions`. */
  datatype SecretRow = SecretRow(archived: bool, versions: map<nat, Envelope>)
  type Secrets = map<string, SecretRow>

  /** What an administrator sees: the values ever written to a path, oldest first. */
  datatype PlainRow = PlainRow(archived: bool, history: seq<Values>)
  type Plain = map<string, PlainRow>

  ghost function MaxOf(s: set<nat>): (m: nat)
    ensures forall x | x in s :: x <= m
    ensures if s == {} then m == 0 else m in s
  {
    if s == {} then 0
    else
      var x :| x in s;
      var m := MaxOf(s - {x});
      assert forall y | y in s :: y == x || y in s - {x};
      if x < m then m else x
  }

  method MaxVersion(versions: map<nat, Envelope>) returns (m: nat)
    ensures m == MaxOf(versions.Keys)
  {
    m := 0;
    var todo := versions.Keys;
    while todo != {}
      invariant todo <= versions.Keys
      invariant forall v | v in versions && v !in todo :: v <= m
      invariant m in versions.Keys || m == 0
      decreases |todo|
    {
      var v :| v in todo;
      if m < v { m := v; }
      todo := todo - {v};
    }
  }

  ghost function ReadVersion(k: Provider, s: Secrets, path: string, v: nat): Result<Values> {
    if path !in s then Err(NotFound)
    else
      var versions := s[path].versions;
      var n := if v == 0 then MaxOf(versions.Keys) else v;
      if n !in versions then Err(NotFound) else Decode(Open(k, versions[n], path, n))
  }

  function Decode(plain: Result<Plaintext>): Result<Values> {
    match plain
    case Ok(Json(values)) => Ok(values)
    case Ok(Seed(_)) => Err(Internal)
    case Err(e) => Err(e)
  }

  datatype Written = Written(row: SecretRow, version: nat)

  ghost function WriteVersion(k: Provider, s: Secrets, path: string, values: Values, r: Coins): Result<Written> {
    var versions := if path in s then s[path].versions else map[];
    var v := MaxOf(versions.Keys) + 1;
    var e := Seal(k, Json(values), path, v, r);
    if e.Err? then Err(e.error) else Ok(Written(SecretRow(false, versions[v := e.value]), v))
  }

  predicate ValidValues(values: Values, jsonSize: nat) {
    && 1 <= |values| <= 500 && jsonSize <= 1024 * 1024
    && forall name | name in values :: 1 <= |name| <= 256 && |values[name]| <= 65536
  }

  /** The sealed table stands for a plain one: versions are 1..n, and version v opens to the v-th value written. */
  ghost predicate Represents(k: Provider, s: Secrets, m: Plain) {
    && s.Keys == m.Keys
    && forall p | p in s :: RowRepresents(k, p, s[p], m[p])
  }

  ghost predicate RowRepresents(k: Provider, p: string, row: SecretRow, plain: PlainRow) {
    && Paths.ValidPath(p) && row.archived == plain.archived && plain.history != []
    && (forall v :: v in row.versions <==> 1 <= v <= |plain.history|)
    && (forall v | v in row.versions :: Open(k, row.versions[v], p, v) == Ok(Json(plain.history[v - 1])))
  }

  lemma LatestVersion(k: Provider, p: string, row: SecretRow, plain: PlainRow)
    requires RowRepresents(k, p, row, plain)
    ensures MaxOf(row.versions.Keys) == |plain.history|
  {
    assert |plain.history| in row.versions.Keys;
  }

  ghost function PlainRead(m: Plain, p: string, v: nat): Result<Values> {
    if p !in m then Err(NotFound)
    else
      var n := if v == 0 then |m[p].history| else v;
      if 1 <= n <= |m[p].history| then Ok(m[p].history[n - 1]) else Err(NotFound)
  }

  ghost function PlainWrite(m: Plain, p: string, values: Values): Plain {
    m[p := PlainRow(false, (if p in m then m[p].history else []) + [values])]
  }

  /** Reading the sealed table is reading the plain one; nothing ever fails to decrypt. */
  lemma ReadRefines(k: Provider, s: Secrets, m: Plain, p: string, v: nat)
    requires Represents(k, s, m)
    ensures ReadVersion(k, s, p, v) == PlainRead(m, p, v)
  {
    hide Paths.ValidPath, Open;
    if p in s {
      LatestVersion(k, p, s[p], m[p]);
    }
  }

  /** Either no version has been written yet, or the row stands for a history. */
  ghost predicate Extendable(k: Provider, p: string, row: SecretRow, plain: PlainRow) {
    (row.versions == map[] && plain.history == []) || RowRepresents(k, p, row, plain)
  }

  lemma NextVersion(k: Provider, p: string, row: SecretRow, plain: PlainRow)
    requires Extendable(k, p, row, plain)
    ensures MaxOf(row.versions.Keys) == |plain.history|
  {
    var written := row.versions.Keys;
    if RowRepresents(k, p, row, plain) {
      LatestVersion(k, p, row, plain);
    } else {
      assert written == {};
      assert MaxOf(written) == 0;
    }
  }

  lemma RowExtended(k: Provider, p: string, row: SecretRow, plain: PlainRow, values: Values, e: Envelope)
    requires Extendable(k, p, row, plain) && Paths.ValidPath(p)
    requires Open(k, e, p, |plain.history| + 1) == Ok(Json(values))
    ensures RowRepresents(k, p, SecretRow(false, row.versions[|plain.history| + 1 := e]), PlainRow(false, plain.history + [values]))
  {
    var after, history := row.versions[|plain.history| + 1 := e], plain.history + [values];
    forall v | v in after ensures Open(k, after[v], p, v) == Ok(Json(history[v - 1])) {
      if v <= |plain.history| {
        assert v in row.versions && after[v] == row.versions[v] && history[v - 1] == plain.history[v - 1];
      }
    }
  }

  /** Writing appends one value, numbers it n+1 and leaves every older envelope as it was. */
  lemma WriteRefines(k: Provider, s: Secrets, m: Plain, p: string, values: Values, r: Coins)
    requires ValidProvider(k) && ValidCoins(r) && Represents(k, s, m) && Paths.ValidPath(p)
    ensures var w := WriteVersion(k, s, p, values, r);
      && w.Ok?
      && w.value.version == |PlainWrite(m, p, values)[p].history|
      && Represents(k, s[p := w.value.row], PlainWrite(m, p, values))
      && (p in s ==> forall v | v in s[p].versions :: v in w.value.row.versions && w.value.row.versions[v] == s[p].versions[v])
  {
    hide Paths.ValidPath, Open, Seal, RowRepresents, ValidProvider;
    var row := if p in s then s[p] else SecretRow(false, map[]);
    var plain := if p in m then m[p] else PlainRow(false, []);
    NextVersion(k, p, row, plain);
    SealedOpens(k, Json(values), p, |plain.history| + 1, r);
    var w := WriteVersion(k, s, p, values, r).value;
    RowExtended(k, p, row, plain, values, w.row.versions[w.version]);
    RepresentsUpdate(k, s, m, p, w.row, PlainWrite(m, p, values)[p]);
  }

  lemma RepresentsUpdate(k: Provider, s: Secrets, m: Plain, p: string, row: SecretRow, plain: PlainRow)
    requires Represents(k, s, m) && RowRepresents(k, p, row, plain)
    ensures Represents(k, s[p := row], m[p := plain])
  {
  }

  lemma ArchiveRefines(k: Provider, s: Secrets, m: Plain, p: string)
    requires Represents(k, s, m) && p in s
    ensures Represents(k, s[p := s[p].(archived := true)], m[p := m[p].(archived := true)])
  {
  }
}
