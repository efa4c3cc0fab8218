/** The single-permission gate of PermissionRequestActivity: ask for
    RECORD_AUDIO under request code 200 unless it is granted, and start the
    voice command service (as a foreground service) once it is. */
module PermissionRequestActivity {
  import opened Permissions

  const REQUEST_RECORD_AUDIO_PERMISSION: int := 200

  /** `startVoiceCommandService`: start the service, then close the
      activity. */
  function StartVoiceCommandService(): (r: seq<ActivityEffect>)
    ensures StartsThenFinishes(r)
    ensures StartForegroundService(VoiceCommandService) in r
    ensures r[|r| - 1] == Finish
    ensures forall e :: e in r ==> e == StartForegroundService(VoiceCommandService) || e == Finish
    ensures multiset(r)[Finish] == 1
  {
    [StartForegroundService(VoiceCommandService), Finish]
  }

  /** Every service start is immediately followed by `Finish`. */
  predicate StartsThenFinishes(r: seq<ActivityEffect>) {
    forall i :: 0 <= i < |r| && r[i].StartForegroundService? ==> i + 1 < |r| && r[i + 1] == Finish
  }

  /** `requestPermissions`: start the service when RECORD_AUDIO is already
      granted, otherwise ask for RECORD_AUDIO alone under code 200. */
  function RequestRecordAudio(recordAudioGranted: bool): (r: seq<ActivityEffect>)
    ensures StartsThenFinishes(r)
    ensures StartForegroundService(VoiceCommandService) in r <==> recordAudioGranted
    ensures !recordAudioGranted ==> r == [RequestPermissions([RecordAudio], REQUEST_RECORD_AUDIO_PERMISSION)]
    ensures recordAudioGranted ==> forall e :: e in r ==> !e.RequestPermissions?
    ensures recordAudioGranted ==>
      (forall e :: e in r ==> e == StartForegroundService(VoiceCommandService) || e == Finish)
      && multiset(r)[Finish] == 1
  {
    if !recordAudioGranted then
      [RequestPermissions([RecordAudio], REQUEST_RECORD_AUDIO_PERMISSION)]
    else
      StartVoiceCommandService()
  }

  /** `onRequestPermissionsResult`: answers to other request codes are
      ignored; for code 200 the service starts when the first result is
      granted, and the activity finishes either way. */
  function OnRequestPermissionsResult(requestCode: int, grantResults: seq<int>): (r: seq<ActivityEffect>)
    ensures StartsThenFinishes(r)
    ensures requestCode != REQUEST_RECORD_AUDIO_PERMISSION ==> r == []
    ensures requestCode == REQUEST_RECORD_AUDIO_PERMISSION ==>
      && |r| > 0 && r[|r| - 1] == Finish
      && ((StartForegroundService(VoiceCommandService) in r)
          <==> (|grantResults| > 0 && grantResults[0] == PERMISSION_GRANTED))
      && multiset(r)[Finish] == 1
    ensures (requestCode == REQUEST_RECORD_AUDIO_PERMISSION
             && !(|grantResults| > 0 && grantResults[0] == PERMISSION_GRANTED)) ==> r == [Finish]
    ensures forall e :: e in r ==> e.StartForegroundService? || e.Finish?
  {
    if requestCode == REQUEST_RECORD_AUDIO_PERMISSION then
      if |grantResults| > 0 && grantResults[0] == PERMISSION_GRANTED then
        StartVoiceCommandService()
      else
        [Finish]
    else
      []
  }

  /** Asking and then being answered under the same code: the service
      starts exactly when the user granted RECORD_AUDIO. */
  lemma RequestThenAnswer(grantResults: seq<int>)
    ensures RequestRecordAudio(false)[0].requestCode == REQUEST_RECORD_AUDIO_PERMISSION
    ensures StartForegroundService(VoiceCommandService)
              in OnRequestPermissionsResult(RequestRecordAudio(false)[0].requestCode, grantResults)
            <==> |grantResults| > 0 && grantResults[0] == PERMISSION_GRANTED
  {
  }
}
