/** The intake of a received email (src/constructs/knowlegeBaseEmailQuery/functions/writeToDynamo.py):
    read the stored object the event names, derive the email's id from its key, record the
    email in the table with an empty disposition, and hand the content on. */
module EmailIntake {
  import opened Outcomes

  /** Where the part of `key[..end]` after its last `/` starts: 0 when there is none. */
  function IdStart(key: string, end: nat): (start: nat)
    requires end <= |key|
    ensures start <= end
    ensures forall p | start <= p < end :: key[p] != '/'
    ensures start > 0 ==> key[start - 1] == '/'
  {
    if end == 0 then 0
    else if key[end - 1] == '/' then end
    else IdStart(key, end - 1)
  }

  /** `key.split("/")[-1]`: the part of the key after its last `/`, or the whole key when it has none. */
  function EmailId(key: string): (id: string)
    ensures '/' !in id
    ensures |id| <= |key| && key[|key| - |id|..] == id
    ensures |id| < |key| ==> key[|key| - |id| - 1] == '/'
  {
    var start := IdStart(key, |key|);
    assert forall p | 0 <= p < |key| - start :: key[start..][p] == key[start + p];
    key[start..]
  }

  /** The email id is the only suffix of the key that holds no `/` and starts the key or follows a `/`. */
  lemma EmailIdUnique(key: string, id: string)
    requires '/' !in id && |id| <= |key| && key[|key| - |id|..] == id
    requires |id| < |key| ==> key[|key| - |id| - 1] == '/'
    ensures id == EmailId(key)
  {
    var start := IdStart(key, |key|);
    var s := |key| - |id|;
    assert forall p | s <= p < |key| :: key[p] == id[p - s];
    assert s == start;
  }

  /** A key under a prefix yields its last name; a key without `/` is its own id. */
  lemma EmailIdOfPath(prefix: string, name: string)
    requires '/' !in name
    ensures EmailId(prefix + "/" + name) == name
    ensures EmailId(name) == name
  {
    var key := prefix + "/" + name;
    assert key[|key| - |name|..] == name;
    assert key[|key| - |name| - 1] == '/';
    EmailIdUnique(key, name);
    EmailIdUnique(name, name);
  }

  /** The object-created event's bucket and key. */
  datatype IntakeEvent = IntakeEvent(bucket: string, key: string)

  /** How the table write ended: stored, rejected by the service (a ClientError, which the handler
      swallows), or failed otherwise (which propagates). */
  datatype WriteOutcome = Stored | ClientError | OtherFault

  /** The storage requests the handler makes. `table` is None when the variable is unset. */
  datatype StorageCall =
    | GetObject(bucket: string, key: string)
    | PutItem(table: Option<string>, item: Item)

  /** What the handler returns. */
  datatype Intake = Intake(emailId: string, receivedTs: string, email: string)

  /** The table record of an email: its id (the key) and arrival time, and its disposition with
      the time that was set. */
  datatype Item = Item(emailId: string, receivedTs: string, disposition: string, dispositionTs: string)

  /** `handler`. `stored` is the stored object's content, None when reading it throws; `now` is
      the clock's reading. */
  method IntakeHandler(table: Option<string>, event: IntakeEvent, stored: Option<string>, write: WriteOutcome, now: string)
    returns (r: Result<Intake>, calls: seq<StorageCall>)
    ensures |calls| >= 1 && calls[0] == GetObject(event.bucket, event.key)
    ensures stored.None? ==> r == Err(ProviderFault("GetObject")) && |calls| == 1
    ensures stored.Some? ==> |calls| == 2 && calls[1] == PutItem(table, Item(EmailId(event.key), now, "", ""))
    ensures r.Ok? <==> stored.Some? && write != OtherFault
    ensures r.Ok? ==> r.value == Intake(EmailId(event.key), now, stored.value)
    ensures stored.Some? && write == OtherFault ==> r == Err(ProviderFault("PutItem"))
  {
    calls := [GetObject(event.bucket, event.key)];
    if stored.None? {
      r := Err(ProviderFault("GetObject"));
      return;
    }
    var content := stored.value;
    var emailId := EmailId(event.key);
    var receivedTs := now;
    calls := [GetObject(event.bucket, event.key), PutItem(table, Item(emailId, receivedTs, "", ""))];
    if write == OtherFault {
      r := Err(ProviderFault("PutItem"));
      return;
    }
    r := Ok(Intake(emailId, receivedTs, content));
  }
}
