/** A seller's revenue target for a month or a year. */
module SalesTargetModel {
  import opened Base

  const TargetPeriods: set<string> := {"monthly", "yearly"}

  datatype TargetDoc = TargetDoc(id: Id, seller: Id, targetAmount: int, period: string, startDate: Time, endDate: Time, isActive: bool)

  /** The schema: a non-negative amount, a known period, and a pre-save hook refusing a window that does not end after it starts. */
  predicate TargetValid(t: TargetDoc) {
    t.targetAmount >= 0 && t.period in TargetPeriods && t.startDate < t.endDate
  }
}
