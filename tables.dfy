/**
  The four uploaded tables as typed records, one datatype per table, with
  the fields the dashboard reads. A cell the pipeline may find empty is an
  `Option`. The payout table's `orders` field appears here under its
  renamed label, `payoutOrders`, so it is a field of its own and never
  shadows the tracking table's `orders`.
*/
module Tables {
  import opened Wrappers

  /** A row of the tracking table: one conversion batch of one influencer. */
  datatype Tracking = Tracking(
    influencerId: string,
    platform: Option<string>,
    product: Option<string>,
    orders: int,
    revenue: real)

  /** A row of the influencer table. */
  datatype Influencer = Influencer(
    influencerId: string,
    name: Option<string>,
    category: Option<string>,
    gender: Option<string>)

  /** A row of the payout table, after its `orders` column became `payout_orders`. */
  datatype Payout = Payout(
    influencerId: string,
    payoutOrders: int,
    totalPayout: real)

  /** A row of the posts table. */
  datatype Post = Post(
    influencerId: string,
    platform: Option<string>,
    likes: int,
    comments: int)

  /**
    A row of the table built by the two left joins: a tracking row with the
    influencer and payout rows that share its `influencer_id`, or null
    (`None`) where there is none.
  */
  datatype JoinedRow = JoinedRow(
    track: Tracking,
    inf: Option<Influencer>,
    pay: Option<Payout>)
}
