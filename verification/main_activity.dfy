/** The permission gate of MainActivity: which of the five permissions are
    missing, whether to start the assistant or ask for them, and what to do
    with the answer. Permission checks are an oracle `granted`. */
module MainActivity {
  import opened Permissions

  /** The permissions checked, in order. */
  const Required: seq<Permission> := [RecordAudio, CallPhone, Camera, ReadContacts, ReadPhoneState]

  lemma RequiredCoversAll()
    ensures Ascending(Required)
    ensures forall p :: p in Required
  {
    forall p ensures p in Required {
      assert Required[Rank(p)] == p;
    }
  }

  /** The members of `ps` that are not granted, in the order of `ps`. */
  function NotGranted(ps: seq<Permission>, granted: Permission -> bool): (r: seq<Permission>)
    requires Ascending(ps)
    ensures Ascending(r)
    ensures forall p :: p in r <==> p in ps && !granted(p)
    ensures |r| <= |ps|
    decreases |ps|
  {
    if |ps| == 0 then []
    else
      var rest := NotGranted(ps[1..], granted);
      assert forall p :: p in rest ==> p in ps[1..] && Rank(ps[0]) < Rank(p);
      if granted(ps[0]) then rest else [ps[0]] + rest
  }

  /** `permissionsNeeded` of `checkPermissionsAndStartServices`: exactly the
      permissions not granted, in checking order, without duplicates, at
      most five. */
  function MissingPermissions(granted: Permission -> bool): (r: seq<Permission>)
    ensures Ascending(r)
    ensures forall p :: p in r <==> !granted(p)
    ensures |r| <= |Required|
  {
    RequiredCoversAll();
    NotGranted(Required, granted)
  }

  /** The missing list is the only ascending list of the non-granted
      permissions. */
  lemma MissingPermissionsUnique(granted: Permission -> bool, other: seq<Permission>)
    requires Ascending(other)
    requires forall p :: p in other <==> !granted(p)
    ensures other == MissingPermissions(granted)
  {
    AscendingUnique(other, MissingPermissions(granted));
  }

  /** `startServices`: only the voice command service is started. */
  function StartServices(): (r: seq<ActivityEffect>)
    ensures StartService(VoiceCommandService) in r
    ensures StartService(GestureDetectionService) !in r
    ensures forall e :: e in r ==> e.StartService?
    ensures |r| == 1
  {
    [StartService(VoiceCommandService)]
  }

  /** `checkPermissionsAndStartServices`: ask for the missing permissions,
      or start the services directly when none is missing. */
  function CheckPermissionsAndStartServices(granted: Permission -> bool): (r: seq<ActivityEffect>)
    ensures |MissingPermissions(granted)| == 0 ==> r == StartServices()
    ensures |MissingPermissions(granted)| > 0 ==>
      r == [LaunchPermissionRequest(MissingPermissions(granted))]
    ensures StartService(VoiceCommandService) in r <==> forall p :: granted(p)
    ensures (exists ps :: LaunchPermissionRequest(ps) in r) <==> exists p :: !granted(p)
  {
    var missing := MissingPermissions(granted);
    if |missing| > 0 then
      assert missing[0] in missing;
      [LaunchPermissionRequest(missing)]
    else
      StartServices()
  }

  /** Every entry of the permission answer is granted (true of an empty
      answer). */
  predicate AllGranted(answer: map<Permission, bool>) {
    forall p :: p in answer ==> answer[p]
  }

  /** The `requestPermissionsLauncher` callback: start the services when
      every requested permission was granted, otherwise do nothing. */
  function OnPermissionsResult(answer: map<Permission, bool>): (r: seq<ActivityEffect>)
    ensures AllGranted(answer) ==> r == StartServices()
    ensures !AllGranted(answer) ==> r == []
    ensures StartService(VoiceCommandService) in r <==> AllGranted(answer)
  {
    if AllGranted(answer) then StartServices() else []
  }

  /** An empty answer starts the services. */
  lemma EmptyAnswerStarts()
    ensures OnPermissionsResult(map[]) == StartServices()
  {
  }

  /** The answer for a request in which every permission asked was granted. */
  function GrantAll(ps: seq<Permission>): (answer: map<Permission, bool>)
    ensures answer.Keys == set p | p in ps
    ensures AllGranted(answer)
  {
    map p | p in ps :: true
  }

  /** Asking for the missing permissions and having all of them granted
      starts the voice command service; having any one of them denied
      starts nothing. */
  lemma RequestThenAnswer(granted: Permission -> bool, denied: Permission)
    requires !granted(denied)
    ensures OnPermissionsResult(GrantAll(MissingPermissions(granted))) == StartServices()
    ensures OnPermissionsResult(GrantAll(MissingPermissions(granted))[denied := false]) == []
  {
    var answer := GrantAll(MissingPermissions(granted))[denied := false];
    assert denied in answer && !answer[denied];
  }
}
