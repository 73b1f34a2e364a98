/** The receipt uploader: where a chosen receipt image is stored before it is scanned. */
module ReceiptUploader {
  import opened Wrappers
  import opened Strings
  import opened Lists

  /** The characters `/[^a-zA-Z0-9.]/g` leaves in place. */
  predicate IsSafe(c: char) {
    IsUpper(c) || IsLowerLetter(c) || IsDigit(c) || c == '.'
  }

  function SafeTest(): char -> bool {
    c => IsSafe(c)
  }

  /** `name.replace(/[^a-zA-Z0-9.]/g, '')`: every other character is dropped. */
  function Sanitize(name: string): string {
    Filter(name, SafeTest())
  }

  /**
   * The sanitised name is made of ASCII letters, digits and dots only, and
   * is what remains of the name, in order, once every other character is
   * taken out: each safe character of the name survives.
   */
  lemma SanitizeSpec(name: string)
    ensures forall i :: 0 <= i < |Sanitize(name)| ==> IsSafe(Sanitize(name)[i])
    ensures IsSubsequence(Sanitize(name), name)
    ensures forall i :: 0 <= i < |name| && IsSafe(name[i]) ==> name[i] in Sanitize(name)
  {
    FilterIsSubsequence(name, SafeTest());
  }

  /** Sanitising twice changes nothing more. */
  lemma SanitizeIdempotent(name: string)
    ensures Sanitize(Sanitize(name)) == Sanitize(name)
  {
    FilterAll(Sanitize(name), SafeTest());
  }

  /** A name that is already safe is kept as it is. */
  lemma SanitizeKeepsSafeNames(name: string)
    requires forall i :: 0 <= i < |name| ==> IsSafe(name[i])
    ensures Sanitize(name) == name
  {
    FilterAll(name, SafeTest());
  }

  /** `${user.id}/${Date.now()}_${sanitised name}`. */
  function StoragePath(userId: string, now: nat, fileName: string): string {
    userId + "/" + NatToString(now) + "_" + Sanitize(fileName)
  }

  /** The entry guard: without a chosen file or a signed-in user nothing is uploaded. */
  function UploadPath(fileName: Option<string>, user: Option<string>, now: nat): (r: Option<string>)
    ensures r.None? <==> fileName.None? || user.None?
  {
    if fileName.None? || user.None? then None
    else Some(StoragePath(user.value, now, fileName.value))
  }

  /**
   * The object lands directly in the user's folder: the path starts with
   * the user id and a slash, and no slash follows, since neither the
   * timestamp nor the sanitised name can contain one.
   */
  lemma StoragePathInUserFolder(userId: string, now: nat, fileName: string)
    ensures var p := StoragePath(userId, now, fileName);
      |p| > |userId| && p[..|userId|] == userId && p[|userId|] == '/' &&
      forall i :: |userId| < i < |p| ==> p[i] != '/'
  {
    var p := StoragePath(userId, now, fileName);
    var stamp, safe := NatToString(now), Sanitize(fileName);
    SanitizeSpec(fileName);
    assert p == userId + "/" + stamp + "_" + safe;
    forall i | |userId| < i < |p|
      ensures p[i] != '/'
    {
      var j := i - |userId| - 1;
      if j < |stamp| {
        assert p[i] == stamp[j];
      } else if j > |stamp| {
        assert p[i] == safe[j - |stamp| - 1];
      }
    }
  }

  /** Two uploads of the same file by the same user at different times go to different paths. */
  lemma StoragePathsDiffer(userId: string, t1: nat, t2: nat, fileName: string)
    requires t1 != t2
    ensures StoragePath(userId, t1, fileName) != StoragePath(userId, t2, fileName)
  {
    var a, b := NatToString(t1), NatToString(t2);
    if StoragePath(userId, t1, fileName) == StoragePath(userId, t2, fileName) {
      var p := StoragePath(userId, t1, fileName);
      var k := |userId| + 1;
      assert |a| == |b|;
      assert a == p[k..k + |a|];
      assert b == StoragePath(userId, t2, fileName)[k..k + |b|];
      NatToStringInjective(t1, t2);
    }
  }
}
