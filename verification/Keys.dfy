/** The S3 key layout: `uploads/{job}/original{ext}` is written by the API,
    `outputs/{job}/thumb_{size}.jpg` by the workers. The store compares keys as
    text; `TextInjective` shows that the two kinds of key, with the job, size
    and extension they were built from, can be read back from it. */
module Keys {
  datatype Key = Original(job: string, ext: Extension) | Thumb(job: string, size: nat)

  /** The stored extension comes from a fixed table keyed by the detected image
      format, never from the client; no entry has a slash. */
  type Extension = ext: string | SlashFree(ext) witness ".bin"

  function Text(key: Key): string {
    match key
    case Original(job, ext) => InputKey(job, ext)
    case Thumb(job, size) => OutputKey(job, size)
  }

  /** Decimal text of a natural number, as an f-string prints it. */
  function Dec(n: nat): (text: string)
    ensures |text| > 0
    ensures forall i :: 0 <= i < |text| ==> '0' <= text[i] <= '9'
  {
    if n < 10 then [Digit(n)] else Dec(n / 10) + [Digit(n % 10)]
  }

  function Digit(d: nat): char
    requires d < 10
  {
    '0' + d as char
  }

  function OutputKey(job: string, size: nat): string {
    "outputs/" + job + ThumbTail(size)
  }

  function ThumbTail(size: nat): string {
    "/thumb_" + Dec(size) + ".jpg"
  }

  function InputKey(job: string, ext: Extension): string {
    "uploads/" + job + "/original" + ext
  }

  ghost predicate SlashFree(text: string) {
    forall i :: 0 <= i < |text| ==> text[i] != '/'
  }

  /** The number a decimal text stands for. */
  ghost function Number(text: string): int {
    if text == "" then 0 else 10 * Number(text[..|text| - 1]) + (text[|text| - 1] as int - '0' as int)
  }

  /** The text stands for the number, and has no leading zero. */
  lemma {:induction false} DecReads(n: nat)
    ensures Number(Dec(n)) == n && (n > 0 ==> Dec(n)[0] != '0')
  {
    var text := Dec(n);
    if n < 10 {
      assert text[..0] == "";
    } else {
      DecReads(n / 10);
      assert text[..|text| - 1] == Dec(n / 10);
    }
  }

  /** Keys as they are written. */
  lemma KeyTexts()
    ensures Text(Thumb("a", 40)) == "outputs/a/thumb_40.jpg"
    ensures Text(Original("a", ".png")) == "uploads/a/original.png"
  {
    assert Dec(40) == "40" by { assert Dec(4) == "4"; }
  }

  lemma {:induction false} DecInjective(a: nat, b: nat)
    requires Dec(a) == Dec(b)
    ensures a == b
  {
    var x, y := Dec(a), Dec(b);
    assert x[|x| - 1] == Digit(a % 10) && y[|y| - 1] == Digit(b % 10);
    if a < 10 || b < 10 {
      assert |x| == 1 && |y| == 1;
    } else {
      assert x[..|x| - 1] == Dec(a / 10) && y[..|y| - 1] == Dec(b / 10);
      DecInjective(a / 10, b / 10);
    }
  }

  /** Two texts that end in a slash followed by a slash-free tail split at the
      same place: the last slash. */
  lemma LastSlashSplits(a: string, s: string, b: string, t: string)
    requires SlashFree(s) && SlashFree(t)
    requires a + "/" + s == b + "/" + t
    ensures a == b && s == t
  {
    var x, y := a + "/" + s, b + "/" + t;
    assert x[|a|] == '/' && y[|b|] == '/';
    assert forall i :: |a| < i < |x| ==> x[i] == s[i - |a| - 1];
    assert forall i :: |b| < i < |y| ==> y[i] == t[i - |b| - 1];
    assert |a| == |b|;
    assert x[..|a|] == a && y[..|b|] == b;
    assert x[|a| + 1..] == s && y[|b| + 1..] == t;
  }

  /** The number between a prefix and `.jpg` can be read back. */
  lemma ThumbNamesInjective(n: nat, m: nat)
    requires "thumb_" + Dec(n) + ".jpg" == "thumb_" + Dec(m) + ".jpg"
    ensures n == m
  {
    var s, t := "thumb_" + Dec(n) + ".jpg", "thumb_" + Dec(m) + ".jpg";
    assert s[6..|s| - 4] == Dec(n) && t[6..|t| - 4] == Dec(m);
    DecInjective(n, m);
  }

  /** (job, size) to output key is injective for every job id whatsoever: the
      tail after the last slash holds the size alone. */
  lemma OutputKeysInjective(j: string, n: nat, k: string, m: nat)
    requires OutputKey(j, n) == OutputKey(k, m)
    ensures j == k && n == m
  {
    var s, t := "thumb_" + Dec(n) + ".jpg", "thumb_" + Dec(m) + ".jpg";
    OutputKeySplits(j, n);
    OutputKeySplits(k, m);
    LastSlashSplits("outputs/" + j, s, "outputs/" + k, t);
    assert ("outputs/" + j)[8..] == j && ("outputs/" + k)[8..] == k;
    ThumbNamesInjective(n, m);
  }

  lemma OutputKeySplits(j: string, n: nat)
    ensures OutputKey(j, n) == ("outputs/" + j) + "/" + ("thumb_" + Dec(n) + ".jpg")
    ensures SlashFree("thumb_" + Dec(n) + ".jpg")
  {
  }

  /** Two jobs never share an input key. */
  lemma InputKeysInjective(j: string, e: Extension, k: string, f: Extension)
    requires InputKey(j, e) == InputKey(k, f)
    ensures j == k && e == f
  {
    assert InputKey(j, e) == ("uploads/" + j) + "/" + ("original" + e);
    assert InputKey(k, f) == ("uploads/" + k) + "/" + ("original" + f);
    LastSlashSplits("uploads/" + j, "original" + e, "uploads/" + k, "original" + f);
    assert ("uploads/" + j)[8..] == j && ("uploads/" + k)[8..] == k;
    assert ("original" + e)[8..] == e && ("original" + f)[8..] == f;
  }

  /** No output ever lands on an original, whatever the ids are. */
  lemma OutputsMissUploads(j: string, n: nat, k: string, ext: Extension)
    ensures OutputKey(j, n) != InputKey(k, ext)
  {
    assert OutputKey(j, n)[0] == 'o' && InputKey(k, ext)[0] == 'u';
  }

  /** Distinct keys have distinct text. No assumption on job ids is needed. */
  lemma TextInjective(a: Key, b: Key)
    requires Text(a) == Text(b)
    ensures a == b
  {
    match (a, b)
    case (Original(j, e), Original(k, f)) => InputKeysInjective(j, e, k, f);
    case (Thumb(j, n), Thumb(k, m)) => OutputKeysInjective(j, n, k, m);
    case (Thumb(j, n), Original(k, f)) => OutputsMissUploads(j, n, k, f);
    case (Original(k, f), Thumb(j, n)) => OutputsMissUploads(j, n, k, f);
  }
}
