/** JSON as an abstract value. Text syntax is not modelled. An object keyed by data (task keys,
    labels, uids) is a `Dict`. For an object whose member names are fixed by the program there is
    one constructor per kind of object; every member may be absent or hold a value of any type,
    and members nobody reads are not represented. */
module Json {
  import opened Wrappers

  type Slot = Option<Json>

  datatype Json =
    | Null
    | Bool(b: bool)
    | Num(n: int)
    | Str(s: string)
    | Arr(items: seq<Json>)
    | Dict(members: map<string, Json>)
    // continuous task record
    | TaskObj(bundleName: Slot, abilityName: Slot, userId: Slot, uid: Slot, pid: Slot, bgModeId: Slot,
              isNewApi: Slot, isFromWebview: Slot, needNotification: Slot, notificationLabel: Slot,
              notificationId: Slot, isBatchApi: Slot, bgModeIds: Slot, bgSubModeIds: Slot, isSystem: Slot,
              wantAgentInfo: Slot, continuousTaskId: Slot, abilityId: Slot, suspendState: Slot,
              suspendReason: Slot, isCombined: Slot, combinedTaskId: Slot, isByRequestObject: Slot,
              subNotificationLabel: Slot, subNotificationId: Slot, appIndex: Slot, detailedCancelReason: Slot,
              isStandby: Slot, audioPlayState: Slot, isStandbySuspend: Slot, progressInfo: Slot,
              isFromComponent: Slot)
    | WantObj(wantBundle: Slot, wantAbility: Slot)
    | ProgressObj(title: Slot, fileName: Slot, progressValue: Slot, isMute: Slot)
    // authorization record
    | AuthObj(authBundle: Slot, authUid: Slot, authNoteId: Slot, authNoteLabel: Slot, authAppName: Slot,
              authResult: Slot, authUserId: Slot, authAppIndex: Slot)
    // efficiency resource record
    | ResourceObj(resBundle: Slot, resUid: Slot, resPid: Slot, resourceNumber: Slot, cpuLevel: Slot, unitList: Slot)
    | UnitObj(resourceIndex: Slot, isPersist: Slot, endTime: Slot, reason: Slot, timeOut: Slot)
    | ResourceFile(appRecords: Slot, processRecords: Slot)

  /** The member is present and is a string / an integer / a boolean. */
  predicate IsStr(v: Slot) {
    v.Some? && v.value.Str?
  }

  predicate IsNum(v: Slot) {
    v.Some? && v.value.Num?
  }

  predicate IsBool(v: Slot) {
    v.Some? && v.value.Bool?
  }
}
