/**
  The `/diagnosa` and `/api/stats` handlers of backend/server.js over abstract tables.
  Each SQL statement is replaced by the table operation it asks for, and whether each statement
  fails is an input (`Faults`), so that every path through the handler's try/catch is reachable.
 */
module Server {
  import opened Wrappers
  import opened Scoring

  /** A row of `users`; `id` is assigned by the table's auto-increment counter. */
  datatype User = User(id: nat, namaLengkap: string, usia: int, jenisKelamin: string)

  /** A row of `diagnoses`; `gejalaTerpilih` stands for the serialized list of submitted codes. */
  datatype Diagnosis = Diagnosis(userId: nat, skorAkhir: real, tingkatRisiko: Tier, gejalaTerpilih: seq<string>)

  /** A row of `symptoms`. */
  datatype Symptom = Symptom(id: nat, namaGejala: string, bobot: int)

  /** The three tables and the next id the `users` table will hand out. */
  datatype Tables = Tables(users: seq<User>, diagnoses: seq<Diagnosis>, symptoms: seq<Symptom>, nextUserId: nat)

  /** The body of a `/diagnosa` request; `gejala` is None when the body carries no list. */
  datatype DiagnoseRequest = DiagnoseRequest(namaLengkap: string, usia: int, jenisKelamin: string, gejala: Option<seq<string>>)

  /** Which of the handler's three statements reject: the user lookup, the user insert and
      the diagnosis insert. */
  datatype Faults = Faults(selectUser: bool, insertUser: bool, insertDiagnosis: bool)

  /** Which of the three counting statements of `/api/stats` reject. */
  datatype CountFaults = CountFaults(users: bool, diagnoses: bool, symptoms: bool)

  datatype Recommendation = Recommendation(judul: string, deskripsi: string)

  /** The JSON answer of `/diagnosa`: the result with `success: true`, or status 500 with a message. */
  datatype DiagnoseResponse =
    | Diagnosed(skorAkhir: real, tingkatRisiko: Tier, diagnosis: string, rekomendasi: seq<Recommendation>)
    | Failed(status: nat, message: string)

  /** The JSON answer of `/api/stats`: the three counts, or status 500. */
  datatype StatsResponse =
    | Counts(totalUsers: nat, totalDiagnoses: nat, totalSymptoms: nat)
    | StatsFailed(status: nat)

  const FailureMessage := "Gagal memproses diagnosis"

  /** The answer of the catch block. */
  const DiagnoseFailure := Failed(500, FailureMessage)

  /** The two fixed recommendations sent with every diagnosis, whatever the tier. */
  const Rekomendasi := [
    Recommendation("Konsultasi Dokter", "Segera hubungi dokter untuk tes gula darah (HBA1C)."),
    Recommendation("Pola Makan", "Kurangi konsumsi karbohidrat olahan dan gula tinggi.")
  ]

  const DiagnosisPrefix := "Berdasarkan gejala yang Anda alami, Anda memiliki risiko "
  const DiagnosisSuffix := " terkena diabetes."

  /** The sentence reported as `diagnosis`. */
  function DiagnosisText(t: Tier): string {
    DiagnosisPrefix + TierName(t) + DiagnosisSuffix
  }

  /** The sentence is the fixed prefix, the tier's name and the fixed suffix, at fixed positions. */
  lemma DiagnosisTextEmbedsTier(t: Tier)
    ensures |DiagnosisText(t)| == |DiagnosisPrefix| + 6 + |DiagnosisSuffix|
    ensures DiagnosisText(t)[..|DiagnosisPrefix|] == DiagnosisPrefix
    ensures DiagnosisText(t)[|DiagnosisPrefix|..|DiagnosisPrefix| + 6] == TierName(t)
    ensures DiagnosisText(t)[|DiagnosisPrefix| + 6..] == DiagnosisSuffix
  {
  }

  /** The sentence names exactly one tier: different tiers give different sentences. */
  lemma {:induction false} DiagnosisTextNamesTier(a: Tier, b: Tier)
    requires DiagnosisText(a) == DiagnosisText(b)
    ensures a == b
  {
    DiagnosisTextEmbedsTier(a);
    DiagnosisTextEmbedsTier(b);
    var p := |DiagnosisPrefix|;
    assert TierName(a)[0] == DiagnosisText(a)[p..p + 6][0] == TierName(b)[0];
  }

  /** `SELECT id FROM users WHERE nama_lengkap = ?`, read as its first row: the position of the
      first user with that name, or None when no user has it. */
  function FindUser(users: seq<User>, name: string): (r: Option<nat>)
    ensures r.Some? ==> r.value < |users| && users[r.value].namaLengkap == name
    ensures r.Some? ==> forall j :: 0 <= j < r.value ==> users[j].namaLengkap != name
    ensures r.None? <==> forall j :: 0 <= j < |users| ==> users[j].namaLengkap != name
  {
    if |users| == 0 then None
    else if users[0].namaLengkap == name then Some(0)
    else match FindUser(users[1..], name)
      case None => None
      case Some(i) => Some(i + 1)
  }

  /** Some row of `users` has this id. */
  ghost predicate HasUser(users: seq<User>, id: nat) {
    exists i :: 0 <= i < |users| && users[i].id == id
  }

  /** What the tables keep true: ids are positive, below the counter and increasing in table
      order (so distinct), and every diagnosis refers to an existing user. */
  ghost predicate ValidTables(t: Tables) {
    0 < t.nextUserId
    && (forall i :: 0 <= i < |t.users| ==> 0 < t.users[i].id < t.nextUserId)
    && (forall i, j :: 0 <= i < j < |t.users| ==> t.users[i].id < t.users[j].id)
    && (forall k :: 0 <= k < |t.diagnoses| ==> HasUser(t.users, t.diagnoses[k].userId))
  }

  /** The row `INSERT INTO users` adds for a request. */
  function NewUser(t: Tables, req: DiagnoseRequest): User {
    User(t.nextUserId, req.namaLengkap, req.usia, req.jenisKelamin)
  }

  /** Step A of the handler: the tables after it and the user id it settles on, or None when
      one of its statements rejects. */
  function ResolveUser(t: Tables, req: DiagnoseRequest, f: Faults): (r: Option<(Tables, nat)>)
    ensures r.None? <==> f.selectUser || (FindUser(t.users, req.namaLengkap).None? && f.insertUser)
    ensures r.Some? ==> r.value.0.diagnoses == t.diagnoses && r.value.0.symptoms == t.symptoms
    ensures r.Some? && FindUser(t.users, req.namaLengkap).Some? ==>
      r.value.0 == t && r.value.1 == t.users[FindUser(t.users, req.namaLengkap).value].id
    ensures r.Some? && FindUser(t.users, req.namaLengkap).None? ==>
      r.value.0.users == t.users + [NewUser(t, req)] && r.value.0.nextUserId == t.nextUserId + 1
      && r.value.1 == t.nextUserId
  {
    if f.selectUser then None
    else match FindUser(t.users, req.namaLengkap)
      case Some(i) => Some((t, t.users[i].id))
      case None =>
        if f.insertUser then None
        else Some((t.(users := t.users + [NewUser(t, req)], nextUserId := t.nextUserId + 1), t.nextUserId))
  }

  /** Steps B to D of the handler, once the user id is settled: score the list, store the
      diagnosis, answer. A missing `gejala` throws at the score computation. */
  function RecordDiagnosis(t: Tables, userId: nat, gejala: Option<seq<string>>, f: Faults): (r: (Tables, DiagnoseResponse))
    ensures r.0.users == t.users && r.0.symptoms == t.symptoms && r.0.nextUserId == t.nextUserId
    ensures r.1.Failed? <==> gejala.None? || f.insertDiagnosis
    ensures r.1.Failed? ==> r == (t, DiagnoseFailure)
    ensures r.1.Diagnosed? ==>
      r.0.diagnoses == t.diagnoses + [Diagnosis(userId, r.1.skorAkhir, r.1.tingkatRisiko, gejala.value)]
  {
    match gejala
    case None => (t, DiagnoseFailure)
    case Some(g) =>
      if f.insertDiagnosis then (t, DiagnoseFailure)
      else
        var tier := Classify(g);
        (t.(diagnoses := t.diagnoses + [Diagnosis(userId, SkorAkhir(g), tier, g)]),
         Diagnosed(SkorAkhir(g), tier, DiagnosisText(tier), Rekomendasi))
  }

  /** The whole `/diagnosa` handler on a snapshot of the tables: the tables afterwards and the
      answer. Symptoms never change; a failure answers 500 and adds no diagnosis; a diagnosis adds
      exactly one row. */
  function HandleDiagnose(t: Tables, req: DiagnoseRequest, f: Faults): (r: (Tables, DiagnoseResponse))
    ensures r.0.symptoms == t.symptoms
    ensures r.1.Failed? ==> r.1 == DiagnoseFailure && r.0.diagnoses == t.diagnoses
    ensures r.1.Diagnosed? ==> |r.0.diagnoses| == |t.diagnoses| + 1 && req.gejala.Some?
  {
    match ResolveUser(t, req, f)
    case None => (t, DiagnoseFailure)
    case Some((t1, userId)) => RecordDiagnosis(t1, userId, req.gejala, f)
  }

  /** The handler answers with a diagnosis exactly when no statement it reaches rejects and the
      request carries a list; otherwise it answers 500 with the fixed message. */
  lemma DiagnoseSucceedsIff(t: Tables, req: DiagnoseRequest, f: Faults)
    ensures var resp := HandleDiagnose(t, req, f).1;
      && (resp.Diagnosed? <==>
           !f.selectUser && (FindUser(t.users, req.namaLengkap).Some? || !f.insertUser)
           && req.gejala.Some? && !f.insertDiagnosis)
      && (resp.Failed? ==> resp == Failed(500, FailureMessage))
  {
  }

  /** A known name reuses the first matching user's id and adds no user. */
  lemma DiagnoseExistingUser(t: Tables, req: DiagnoseRequest, f: Faults, i: nat)
    requires !f.selectUser && FindUser(t.users, req.namaLengkap) == Some(i)
    ensures var (t', resp) := HandleDiagnose(t, req, f);
      && t'.users == t.users && t'.nextUserId == t.nextUserId
      && (resp.Diagnosed? ==> t'.diagnoses[|t'.diagnoses| - 1].userId == t.users[i].id)
  {
  }

  /** An unknown name adds exactly one user row, with a fresh id, and the diagnosis uses that id.
      The row stays even when a later step fails: there is no transaction to roll back. */
  lemma DiagnoseNewUser(t: Tables, req: DiagnoseRequest, f: Faults)
    requires ValidTables(t)
    requires !f.selectUser && !f.insertUser && FindUser(t.users, req.namaLengkap).None?
    ensures var (t', resp) := HandleDiagnose(t, req, f);
      && t'.users == t.users + [User(t.nextUserId, req.namaLengkap, req.usia, req.jenisKelamin)]
      && (forall i :: 0 <= i < |t.users| ==> t.users[i].id != t.nextUserId)
      && (resp.Diagnosed? ==> t'.diagnoses[|t'.diagnoses| - 1].userId == t.nextUserId)
  {
  }

  /** A diagnosis appends exactly one row, holding the reported score and tier and the submitted
      list, for an existing user; no earlier row of any table changes. */
  lemma {:induction false} DiagnoseAppendsOneRow(t: Tables, req: DiagnoseRequest, f: Faults)
    requires HandleDiagnose(t, req, f).1.Diagnosed?
    ensures var (t', resp) := HandleDiagnose(t, req, f);
      && |t'.diagnoses| == |t.diagnoses| + 1
      && t'.diagnoses[..|t.diagnoses|] == t.diagnoses
      && t'.symptoms == t.symptoms
      && t'.users[..|t.users|] == t.users
      && var row := t'.diagnoses[|t.diagnoses|];
         row.skorAkhir == resp.skorAkhir && row.tingkatRisiko == resp.tingkatRisiko
         && row.gejalaTerpilih == req.gejala.value
         && 5.0 * resp.skorAkhir == |req.gejala.value| as real
         && resp.tingkatRisiko == Classify(req.gejala.value)
         && resp.diagnosis == DiagnosisText(resp.tingkatRisiko)
         && resp.rekomendasi == Rekomendasi
         && HasUser(t'.users, row.userId)
  {
    var (t', resp) := HandleDiagnose(t, req, f);
    var row := t'.diagnoses[|t.diagnoses|];
    match FindUser(t.users, req.namaLengkap)
    case Some(i) =>
      assert t'.users[i].id == row.userId;
    case None =>
      assert t'.users[|t.users|].id == row.userId;
  }

  /** A failed request adds no diagnosis and touches no symptom; at most the user row of
      step A remains. */
  lemma DiagnoseFailureKeepsDiagnoses(t: Tables, req: DiagnoseRequest, f: Faults)
    requires HandleDiagnose(t, req, f).1.Failed?
    ensures var (t', resp) := HandleDiagnose(t, req, f);
      && t'.diagnoses == t.diagnoses && t'.symptoms == t.symptoms
      && (t'.users == t.users || t'.users == t.users + [NewUser(t, req)])
  {
  }

  /** A request without a list for a new name fails with 500 yet leaves the new user behind. */
  lemma NoRollback(t: Tables, req: DiagnoseRequest)
    requires FindUser(t.users, req.namaLengkap).None? && req.gejala.None?
    ensures var (t', resp) := HandleDiagnose(t, req, Faults(false, false, false));
      resp == DiagnoseFailure && |t'.users| == |t.users| + 1 && t'.diagnoses == t.diagnoses
  {
  }

  lemma {:induction false} HasUserGrows(users: seq<User>, u: User, id: nat)
    requires HasUser(users, id)
    ensures HasUser(users + [u], id)
  {
    var i :| 0 <= i < |users| && users[i].id == id;
    assert (users + [u])[i].id == id;
  }

  /** Step A keeps the tables valid, and the id it settles on is that of an existing user. */
  lemma {:induction false} ResolveUserPreservesValid(t: Tables, req: DiagnoseRequest, f: Faults)
    requires ValidTables(t)
    ensures var r := ResolveUser(t, req, f);
      r.Some? ==> ValidTables(r.value.0) && HasUser(r.value.0.users, r.value.1)
  {
    match ResolveUser(t, req, f)
    case None =>
    case Some((t1, userId)) =>
      if FindUser(t.users, req.namaLengkap).None? {
        var u := NewUser(t, req);
        forall k | 0 <= k < |t.diagnoses|
          ensures HasUser(t1.users, t.diagnoses[k].userId)
        {
          HasUserGrows(t.users, u, t.diagnoses[k].userId);
        }
        assert t1.users[|t.users|].id == userId;
        forall i | 0 <= i < |t1.users|
          ensures 0 < t1.users[i].id < t1.nextUserId
        {
          if i < |t.users| { assert t1.users[i] == t.users[i]; }
        }
      } else {
        var i := FindUser(t.users, req.namaLengkap).value;
        assert t.users[i].id == userId;
      }
  }

  /** Appending a diagnosis for an existing user keeps the tables valid. */
  lemma AppendKeepsValid(t: Tables, row: Diagnosis)
    requires ValidTables(t) && HasUser(t.users, row.userId)
    ensures ValidTables(t.(diagnoses := t.diagnoses + [row]))
  {
  }

  /** The handler keeps the tables valid on every path. */
  lemma {:induction false} DiagnosePreservesValid(t: Tables, req: DiagnoseRequest, f: Faults)
    requires ValidTables(t)
    ensures ValidTables(HandleDiagnose(t, req, f).0)
  {
    var t' := HandleDiagnose(t, req, f).0;
    ResolveUserPreservesValid(t, req, f);
    match ResolveUser(t, req, f)
    case None =>
    case Some((t1, userId)) =>
      if t' != t1 {
        AppendKeepsValid(t1, t'.diagnoses[|t1.diagnoses|]);
        assert t' == t1.(diagnoses := t1.diagnoses + [t'.diagnoses[|t1.diagnoses|]]);
      }
  }

  /** The handler as written: `executeQuery` calls `pool.query`, but no pool is created,
      so every statement rejects. */
  const AsWrittenFaults := Faults(true, true, true)

  /** As written, every `/diagnosa` request answers 500 and changes nothing. */
  lemma AsWrittenDiagnoseAlwaysFails(t: Tables, req: DiagnoseRequest)
    ensures HandleDiagnose(t, req, AsWrittenFaults) == (t, DiagnoseFailure)
  {
  }

  /** With a working pool every request that carries a list is diagnosed. */
  lemma WorkingPoolDiagnoses(t: Tables, req: DiagnoseRequest)
    requires req.gejala.Some?
    ensures HandleDiagnose(t, req, Faults(false, false, false)).1.Diagnosed?
  {
  }

  /** The tables as an object whose handlers update them in place. */
  class Database {
    var users: seq<User>
    var diagnoses: seq<Diagnosis>
    var symptoms: seq<Symptom>
    var nextUserId: nat

    /** The current contents as a value. */
    function Snapshot(): (t: Tables)
      reads this
      ensures t.users == users && t.diagnoses == diagnoses && t.symptoms == symptoms
      ensures t.nextUserId == nextUserId
    {
      Tables(users, diagnoses, symptoms, nextUserId)
    }

    ghost predicate Valid()
      reads this
    {
      ValidTables(Snapshot())
    }

    /** Empty `users` and `diagnoses`, a given `symptoms` table, ids starting at 1. */
    constructor (symptoms: seq<Symptom>)
      ensures Valid()
      ensures users == [] && diagnoses == [] && this.symptoms == symptoms && nextUserId == 1
    {
      users := [];
      diagnoses := [];
      this.symptoms := symptoms;
      nextUserId := 1;
    }

    /** Step A of `POST /diagnosa`: the id of the first user with the requested name, or a row
        inserted for that name and its fresh id; None when a statement rejects. */
    method FindOrInsertUser(req: DiagnoseRequest, f: Faults) returns (userId: Option<nat>)
      requires Valid()
      modifies this
      ensures Valid()
      ensures userId.None? ==> ResolveUser(old(Snapshot()), req, f).None? && Snapshot() == old(Snapshot())
      ensures userId.Some? ==> ResolveUser(old(Snapshot()), req, f) == Some((Snapshot(), userId.value))
    {
      ResolveUserPreservesValid(Snapshot(), req, f);
      if f.selectUser {
        return None;
      }
      var found := FindUser(users, req.namaLengkap);
      if found.Some? {
        return Some(users[found.value].id);
      }
      if f.insertUser {
        return None;
      }
      userId := Some(nextUserId);
      users := users + [User(nextUserId, req.namaLengkap, req.usia, req.jenisKelamin)];
      nextUserId := nextUserId + 1;
    }

    /** Steps B to D of `POST /diagnosa` in place: score the list, append the diagnosis, answer. */
    method Record(userId: nat, gejala: Option<seq<string>>, f: Faults) returns (resp: DiagnoseResponse)
      requires Valid() && HasUser(users, userId)
      modifies this
      ensures Valid()
      ensures (Snapshot(), resp) == RecordDiagnosis(old(Snapshot()), userId, gejala, f)
    {
      // B. score and tier
      if gejala.None? {
        return DiagnoseFailure;
      }
      var g := gejala.value;
      var score := Score(g);
      var tingkatRisiko := Rendah;
      if score > 70.0 {
        tingkatRisiko := Tinggi;
      } else if score > 40.0 {
        tingkatRisiko := Sedang;
      }
      assert tingkatRisiko == Classify(g) && score / 100.0 == SkorAkhir(g);
      // C. store the diagnosis
      if f.insertDiagnosis {
        return DiagnoseFailure;
      }
      AppendKeepsValid(Snapshot(), Diagnosis(userId, score / 100.0, tingkatRisiko, g));
      diagnoses := diagnoses + [Diagnosis(userId, score / 100.0, tingkatRisiko, g)];
      // D. answer
      resp := Diagnosed(score / 100.0, tingkatRisiko, DiagnosisText(tingkatRisiko), Rekomendasi);
    }

    /** `POST /diagnosa`: find or insert the user, then score, store and answer. */
    method Diagnose(req: DiagnoseRequest, f: Faults) returns (resp: DiagnoseResponse)
      requires Valid()
      modifies this
      ensures Valid()
      ensures (Snapshot(), resp) == HandleDiagnose(old(Snapshot()), req, f)
    {
      ResolveUserPreservesValid(Snapshot(), req, f);
      var userId := FindOrInsertUser(req, f);
      if userId.None? {
        return DiagnoseFailure;
      }
      resp := Record(userId.value, req.gejala, f);
    }

    /** `GET /api/stats`: the sizes of the three tables, or 500 when any count rejects.
        It only reads. */
    method Stats(f: CountFaults) returns (r: StatsResponse)
      ensures r.Counts? <==> !f.users && !f.diagnoses && !f.symptoms
      ensures r.Counts? ==> r == Counts(|users|, |diagnoses|, |symptoms|)
      ensures r.StatsFailed? ==> r.status == 500
    {
      if f.users || f.diagnoses || f.symptoms {
        return StatsFailed(500);
      }
      r := Counts(|users|, |diagnoses|, |symptoms|);
    }
  }
}
