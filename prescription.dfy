/**
 * The prescriptions screen: the bundled sample list, the two summary
 * counts, the status badge colours and the "Request Refill" button.
 */
module Prescription {
  import opened Lists

  /** One prescription as the sample list gives it. */
  datatype PrescriptionItem = PrescriptionItem(
    id: string, name: string, dosage: string, instructions: string,
    prescribedBy: string, date: string, refillsLeft: nat, status: string)

  /** The list the screen ships with and shows. */
  const SAMPLE_PRESCRIPTIONS: seq<PrescriptionItem> := [
    PrescriptionItem("1", "Metformin", "500 mg", "Take one tablet twice daily with meals.",
                     "Dr. Emily Carter", "2025-09-15", 2, "Active"),
    PrescriptionItem("2", "Lisinopril", "10 mg", "Take one tablet every morning.",
                     "Dr. Emily Carter", "2025-09-15", 1, "Active"),
    PrescriptionItem("3", "Atorvastatin", "20 mg", "Take one tablet at bedtime.",
                     "Dr. Ben Jacobs", "2025-08-20", 0, "Refill Needed"),
    PrescriptionItem("4", "Amoxicillin", "250 mg", "Take one capsule every 8 hours for 7 days.",
                     "Dr. Emily Carter", "2025-07-01", 0, "Expired")
  ]

  predicate IsActive(p: PrescriptionItem) { p.status == "Active" }
  predicate NeedsRefill(p: PrescriptionItem) { p.status == "Refill Needed" }

  /** `activePrescriptions`: the number of items whose status is exactly "Active". */
  function ActiveCount(items: seq<PrescriptionItem>): nat {
    Count(items, IsActive)
  }

  /** `refillNeeded`: the number of items whose status is exactly "Refill Needed". */
  function RefillNeededCount(items: seq<PrescriptionItem>): nat {
    Count(items, NeedsRefill)
  }

  /** No item is both active and in need of a refill, so the two counts together never exceed the list. */
  lemma CountsBound(items: seq<PrescriptionItem>)
    ensures ActiveCount(items) + RefillNeededCount(items) <= |items|
  {
    CountDisjoint(items, IsActive, NeedsRefill);
  }

  /** On the bundled list the summary reads 2 active and 1 needing a refill. */
  lemma SampleCounts()
    ensures ActiveCount(SAMPLE_PRESCRIPTIONS) == 2
    ensures RefillNeededCount(SAMPLE_PRESCRIPTIONS) == 1
  {
    var s := SAMPLE_PRESCRIPTIONS;
    assert s[1..][1..][1..][1..] == [];
    assert Filter(s[1..][1..][1..], IsActive) == [];
    assert Filter(s[1..][1..], IsActive) == [];
    assert Filter(s, IsActive) == [s[0], s[1]];
    assert Filter(s[1..][1..][1..], NeedsRefill) == [];
    assert Filter(s[1..][1..], NeedsRefill) == [s[2]];
    assert Filter(s, NeedsRefill) == [s[2]];
  }

  /** A badge's colours. */
  datatype StatusStyle = StatusStyle(backgroundColor: string, color: string)

  const GREEN: StatusStyle := StatusStyle("#D1FAE5", "#065F46")
  const AMBER: StatusStyle := StatusStyle("#FEF3C7", "#92400E")
  const RED: StatusStyle := StatusStyle("#FEE2E2", "#991B1B")
  const GREY: StatusStyle := StatusStyle("#E5E7EB", "#4B5563")

  /** `getStatusStyle`: green, amber and red for the three known statuses, grey for anything else. */
  function StatusStyleOf(status: string): (style: StatusStyle)
    ensures style == GREEN <==> status == "Active"
    ensures style == AMBER <==> status == "Refill Needed"
    ensures style == RED <==> status == "Expired"
    ensures style == GREY <==> status != "Active" && status != "Refill Needed" && status != "Expired"
  {
    match status
    case "Active" => GREEN
    case "Refill Needed" => AMBER
    case "Expired" => RED
    case _ => GREY
  }

  /** The "Request Refill" button appears on every card except an expired one. */
  predicate RefillShown(p: PrescriptionItem) {
    p.status != "Expired"
  }

  /** The button is missing exactly on the cards with a red badge. */
  lemma RefillShownUnlessRed(p: PrescriptionItem)
    ensures RefillShown(p) <==> StatusStyleOf(p.status) != RED
  {
  }

  /** On the bundled list every card but the last (expired) one offers a refill. */
  lemma SampleRefillButtons()
    ensures forall i :: 0 <= i < 3 ==> RefillShown(SAMPLE_PRESCRIPTIONS[i])
    ensures !RefillShown(SAMPLE_PRESCRIPTIONS[3])
  {
  }
}
