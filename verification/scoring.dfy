/**
  The risk rule of the `/diagnosa` handler (backend/server.js:64-67): the number of selected
  symptoms becomes a percentage score, and two thresholds on that score pick one of three tiers.
  The score is computed exactly, as a real number.
 */
module Scoring {

  /** The stored and reported risk tier: low, medium, high. */
  datatype Tier = Rendah | Sedang | Tinggi

  /** The text the handler stores and reports for a tier. */
  function TierName(t: Tier): (name: string)
    ensures |name| == 6
  {
    match t
    case Rendah => "Rendah"
    case Sedang => "Sedang"
    case Tinggi => "Tinggi"
  }

  /** Tiers are ordered Rendah < Sedang < Tinggi. */
  function Rank(t: Tier): (r: nat)
    ensures r <= 2
  {
    match t
    case Rendah => 0
    case Sedang => 1
    case Tinggi => 2
  }

  /** `(gejala.length / 5) * 100`: twenty points per submitted element, with no cap at 100. */
  function Score(gejala: seq<string>): (score: real)
    ensures score == 20.0 * (|gejala| as real)
    ensures score >= 0.0
  {
    (|gejala| as real / 5.0) * 100.0
  }

  /** `skor_akhir`, the score divided by 100: one fifth per submitted element. */
  function SkorAkhir(gejala: seq<string>): (skor: real)
    ensures 5.0 * skor == |gejala| as real
  {
    Score(gejala) / 100.0
  }

  /** The if/else chain on the score: above 70 is Tinggi, above 40 is Sedang, otherwise Rendah. */
  function TierOf(score: real): (t: Tier)
    ensures t == Tinggi <==> score > 70.0
    ensures t == Sedang <==> 40.0 < score <= 70.0
    ensures t == Rendah <==> score <= 40.0
  {
    if score > 70.0 then Tinggi
    else if score > 40.0 then Sedang
    else Rendah
  }

  /** The tier of a submission, stated by its number of elements: four or more is Tinggi,
      exactly three is Sedang, two or fewer (the empty list included) is Rendah. */
  function Classify(gejala: seq<string>): (t: Tier)
    ensures t == Tinggi <==> |gejala| >= 4
    ensures t == Sedang <==> |gejala| == 3
    ensures t == Rendah <==> |gejala| <= 2
  {
    var n := |gejala|;
    assert n >= 4 ==> Score(gejala) >= 80.0;
    assert n == 3 ==> Score(gejala) == 60.0;
    assert n <= 2 ==> Score(gejala) <= 40.0;
    TierOf(Score(gejala))
  }

  /** Only the number of elements matters: duplicates, unknown codes and order change nothing. */
  lemma OnlyLengthMatters(a: seq<string>, b: seq<string>)
    requires |a| == |b|
    ensures Score(a) == Score(b) && SkorAkhir(a) == SkorAkhir(b) && Classify(a) == Classify(b)
  {
  }

  /** More elements never lower the score or the tier. */
  lemma Monotone(a: seq<string>, b: seq<string>)
    requires |a| <= |b|
    ensures Score(a) <= Score(b)
    ensures Rank(Classify(a)) <= Rank(Classify(b))
  {
  }

  /** Six symptoms score 120, so `skor_akhir` is 1.2: the score is not capped. */
  lemma SixSymptomsExceedHundred(gejala: seq<string>)
    requires |gejala| == 6
    ensures Score(gejala) == 120.0 && SkorAkhir(gejala) == 1.2 && Classify(gejala) == Tinggi
  {
  }
}
