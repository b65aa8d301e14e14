/** The warning rule of apps/frontend/src/components/Malpractice.jsx: each
    batch of object detections is scanned for people and phones, and one
    warning is chosen by a fixed priority. */
module Malpractice {
  import opened Wrappers

  /** A detection; of its fields only the class decides anything
      (the bounding box is only drawn). */
  datatype Detection = Detection(objectClass: string)

  const Person: string := "person"
  const CellPhone: string := "cell phone"
  const TooManyPeople: string := "More than one person detected."
  const PhoneSeen: string := "Mobile phone detected."

  function Labels(ds: seq<Detection>): (ls: seq<string>)
    ensures |ls| == |ds| && forall i :: 0 <= i < |ds| ==> ls[i] == ds[i].objectClass
  {
    seq(|ds|, i requires 0 <= i < |ds| => ds[i].objectClass)
  }

  /** The person count the scan reaches, one detection at a time: at most
      one per detection, and zero exactly when no detection is a person. */
  function CountPersons(ds: seq<Detection>): (c: nat)
    ensures c <= |ds|
    ensures c == 0 <==> forall i :: 0 <= i < |ds| ==> ds[i].objectClass != Person
  {
    if ds == [] then 0 else CountPersons(ds[..|ds| - 1]) + (if ds[|ds| - 1].objectClass == Person then 1 else 0)
  }

  /** Whether the scan sets the phone flag: exactly when some detection is a
      phone. */
  function AnyPhone(ds: seq<Detection>): (b: bool)
    ensures b <==> exists i :: 0 <= i < |ds| && ds[i].objectClass == CellPhone
  {
    if ds == [] then false else AnyPhone(ds[..|ds| - 1]) || ds[|ds| - 1].objectClass == CellPhone
  }

  /** The choice after the scan: more than one person first, then a phone,
      otherwise no warning. */
  function WarningFor(ds: seq<Detection>): (w: Option<string>)
    ensures w == Some(TooManyPeople) <==> CountPersons(ds) > 1
    ensures w == Some(PhoneSeen) <==> CountPersons(ds) <= 1 && AnyPhone(ds)
    ensures w.None? <==> CountPersons(ds) <= 1 && !AnyPhone(ds)
  {
    if CountPersons(ds) > 1 then Some(TooManyPeople)
    else if AnyPhone(ds) then Some(PhoneSeen)
    else None
  }

  /** The counters depend only on how often each label occurs. */
  lemma {:induction false} CountersFromLabels(ds: seq<Detection>)
    ensures CountPersons(ds) == multiset(Labels(ds))[Person]
    ensures AnyPhone(ds) <==> CellPhone in multiset(Labels(ds))
  {
    if ds != [] {
      var n := |ds| - 1;
      CountersFromLabels(ds[..n]);
      assert Labels(ds) == Labels(ds[..n]) + [ds[n].objectClass];
    }
  }

  /** The warning, stated on the labels alone: more than one "person" wins
      even with a phone in view; a "cell phone" comes next; otherwise, with
      zero people too, there is none. */
  lemma WarningPriority(ds: seq<Detection>)
    ensures multiset(Labels(ds))[Person] > 1 ==> WarningFor(ds) == Some(TooManyPeople)
    ensures multiset(Labels(ds))[Person] <= 1 && CellPhone in Labels(ds) ==> WarningFor(ds) == Some(PhoneSeen)
    ensures multiset(Labels(ds))[Person] <= 1 && CellPhone !in Labels(ds) ==> WarningFor(ds) == None
  {
    CountersFromLabels(ds);
  }

  /** Reordering the detections never changes the warning. */
  lemma WarningIgnoresOrder(d1: seq<Detection>, d2: seq<Detection>)
    requires multiset(Labels(d1)) == multiset(Labels(d2))
    ensures WarningFor(d1) == WarningFor(d2)
  {
    CountersFromLabels(d1);
    CountersFromLabels(d2);
  }

  /** The `forEach` over the detections. */
  method Scan(detections: seq<Detection>) returns (personCount: nat, mobilePhoneDetected: bool)
    ensures personCount == CountPersons(detections)
    ensures mobilePhoneDetected == AnyPhone(detections)
  {
    personCount, mobilePhoneDetected := 0, false;
    var i := 0;
    while i < |detections|
      invariant 0 <= i <= |detections|
      invariant personCount == CountPersons(detections[..i])
      invariant mobilePhoneDetected == AnyPhone(detections[..i])
    {
      var text := detections[i].objectClass;
      if text == Person {
        personCount := personCount + 1;
      }
      if text == CellPhone {
        mobilePhoneDetected := true;
      }
      assert detections[..i + 1][..i] == detections[..i];
      i := i + 1;
    }
    assert detections[..i] == detections;
  }

  /** The component's warning state. */
  class Malpractice {
    var warning: Option<string>

    constructor ()
      ensures warning == None
    {
      warning := None;
    }

    /** drawRect's decision for one batch of detections. */
    method DrawRect(detections: seq<Detection>)
      modifies this`warning
      ensures warning == WarningFor(detections)
    {
      var personCount, mobilePhoneDetected := Scan(detections);
      if personCount > 1 {
        warning := Some(TooManyPeople);
      } else if mobilePhoneDetected {
        warning := Some(PhoneSeen);
      } else {
        warning := None;
      }
    }

    /** Closing the warning dialog clears the warning. */
    method CloseDialog()
      modifies this`warning
      ensures warning == None
    {
      warning := None;
    }
  }
}
