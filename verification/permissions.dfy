/** What the two activities share: the runtime permissions the app asks for,
    the services it starts, and the effects an activity step performs. */
module Permissions {

  /** The runtime permissions of the app, in the order MainActivity checks
      them. */
  datatype Permission = RecordAudio | CallPhone | Camera | ReadContacts | ReadPhoneState

  /** The position of a permission in the order MainActivity checks them. */
  function Rank(p: Permission): (k: nat)
    ensures k < 5
  {
    match p
    case RecordAudio => 0
    case CallPhone => 1
    case Camera => 2
    case ReadContacts => 3
    case ReadPhoneState => 4
  }

  /** Strictly ordered by rank, hence free of duplicates. */
  predicate Ascending(ps: seq<Permission>) {
    forall i, j :: 0 <= i < j < |ps| ==> Rank(ps[i]) < Rank(ps[j])
  }

  /** Two ascending lists with the same members are the same list. */
  lemma {:induction false} AscendingUnique(a: seq<Permission>, b: seq<Permission>)
    requires Ascending(a) && Ascending(b)
    requires forall p :: p in a <==> p in b
    ensures a == b
    decreases |a| + |b|
  {
    if |a| > 0 && |b| > 0 {
      assert a[0] == b[0] by {
        assert a[0] in b;
        assert b[0] in a;
        var i :| 0 <= i < |b| && b[i] == a[0];
        var j :| 0 <= j < |a| && a[j] == b[0];
        assert Rank(b[0]) <= Rank(a[0]) by { if i > 0 { assert Rank(b[0]) < Rank(b[i]); } }
        assert Rank(a[0]) <= Rank(b[0]) by { if j > 0 { assert Rank(a[0]) < Rank(a[j]); } }
        assert Rank(a[0]) == Rank(b[0]);
      }
      forall p
        ensures p in a[1..] <==> p in b[1..]
      {
        if p in a[1..] {
          var i :| 1 <= i < |a| && a[i] == p;
          assert Rank(a[0]) < Rank(p);
          assert p in b && p != b[0];
          var j :| 0 <= j < |b| && b[j] == p;
          assert j > 0;
          assert b[1..][j - 1] == p;
        }
        if p in b[1..] {
          var j :| 1 <= j < |b| && b[j] == p;
          assert Rank(b[0]) < Rank(p);
          assert p in a && p != a[0];
          var i :| 0 <= i < |a| && a[i] == p;
          assert i > 0;
          assert a[1..][i - 1] == p;
        }
      }
      AscendingUnique(a[1..], b[1..]);
      assert a == [a[0]] + a[1..] && b == [b[0]] + b[1..];
    } else {
      HeadIsMember(a);
      HeadIsMember(b);
    }
  }

  lemma HeadIsMember(s: seq<Permission>)
    ensures |s| > 0 ==> s[0] in s
  {
  }

  /** The services of the app. */
  datatype Service = VoiceCommandService | GestureDetectionService

  /** What an activity step does, in order. */
  datatype ActivityEffect =
    | LaunchPermissionRequest(permissions: seq<Permission>)
    | RequestPermissions(permissions: seq<Permission>, requestCode: int)
    | StartService(service: Service)
    | StartForegroundService(service: Service)
    | Finish

  /** `PackageManager.PERMISSION_GRANTED` (Android SDK value). */
  const PERMISSION_GRANTED: int := 0
}
