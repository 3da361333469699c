/** The values the recall stage passes around. */
module RecallModels {
  datatype RecallCandidate = RecallCandidate(
    source: string,
    itemId: string,
    bucket: string,
    score: real,
    matchedReason: seq<string>,
    contentSummary: string,
    domains: seq<string>,
    applicability: string,
    polarity: string,
    createdAt: string,
    key: string,
    retrievalScore: real
  )

  const PROFILE := "profile"
  const EPISODE_SLICE := "episode_slice"
  const SYMBOLIC := "symbolic"
}
