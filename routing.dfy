/**
 * The region resolver: maps the AWS region an alert comes from to the Flows
 * region tag whose API receives it, falling back to "US".
 */
module Routing {
  import opened Wrappers
  import opened Json

  /** The AWS regions the resolver knows, with their Flows region tag. */
  const RegionMapping: map<string, string> := map[
    "us-east-1" := "US",
    "us-west-2" := "US",
    "ca-central-1" := "CA",
    "eu-west-1" := "EMEA",
    "eu-central-1" := "EMEA"
  ]

  /** The tag every region missing from `RegionMapping` resolves to. */
  const DefaultTag: string := "US"

  /** Every tag the resolver can produce. */
  const RegionTags: set<string> := {"US", "CA", "EMEA"}

  /**
   * `region_mapping.get(aws_region, "US")`: an exact, case-sensitive lookup with
   * a default. The argument is whatever the alert carries under `awsRegion`, so
   * it need not be a string; a list or a dict cannot be looked up at all (Python
   * raises TypeError), which is the only way the resolver gives no tag.
   */
  function IdentifyRegion(awsRegion: Value): (tag: Option<string>)
    ensures tag.None? <==> !Hashable(awsRegion)
    ensures tag.Some? ==> tag.value in RegionTags
    ensures awsRegion.Str? && awsRegion.s in RegionMapping ==> tag == Some(RegionMapping[awsRegion.s])
    ensures Hashable(awsRegion) && !(awsRegion.Str? && awsRegion.s in RegionMapping) ==> tag == Some(DefaultTag)
  {
    if !Hashable(awsRegion) then None
    else if awsRegion.Str? && awsRegion.s in RegionMapping then Some(RegionMapping[awsRegion.s])
    else Some(DefaultTag)
  }

  /** The five regions the source lists resolve to their documented tags. */
  lemma KnownRegions()
    ensures IdentifyRegion(Str("us-east-1")) == Some("US")
    ensures IdentifyRegion(Str("us-west-2")) == Some("US")
    ensures IdentifyRegion(Str("ca-central-1")) == Some("CA")
    ensures IdentifyRegion(Str("eu-west-1")) == Some("EMEA")
    ensures IdentifyRegion(Str("eu-central-1")) == Some("EMEA")
  {
  }

  /** Any other string, including the empty one and other casings, resolves to "US". */
  lemma UnknownRegionIsUS(awsRegion: string)
    requires awsRegion !in RegionMapping
    ensures IdentifyRegion(Str(awsRegion)) == Some("US")
  {
  }

  /** No case folding: upper-case spellings of known regions are unknown regions. */
  lemma LookupIsCaseSensitive()
    ensures IdentifyRegion(Str("CA-CENTRAL-1")) == Some("US")
    ensures IdentifyRegion(Str("EU-WEST-1")) == Some("US")
    ensures IdentifyRegion(Str("")) == Some("US")
  {
    UnknownRegionIsUS("CA-CENTRAL-1");
    UnknownRegionIsUS("EU-WEST-1");
    UnknownRegionIsUS("");
  }

  /** Totality over strings: every string resolves, to one of the three tags. */
  lemma EveryStringResolves(awsRegion: string)
    ensures IdentifyRegion(Str(awsRegion)).Some?
    ensures IdentifyRegion(Str(awsRegion)).value in RegionTags
  {
  }

  /**
   * The preimage of each tag among strings: "CA" comes only from ca-central-1,
   * "EMEA" only from the two EU regions, and "US" from everything else.
   */
  lemma TagPreimages(awsRegion: string)
    ensures IdentifyRegion(Str(awsRegion)) == Some("CA") <==> awsRegion == "ca-central-1"
    ensures IdentifyRegion(Str(awsRegion)) == Some("EMEA") <==> awsRegion == "eu-west-1" || awsRegion == "eu-central-1"
    ensures IdentifyRegion(Str(awsRegion)) == Some("US") <==>
              awsRegion != "ca-central-1" && awsRegion != "eu-west-1" && awsRegion != "eu-central-1"
  {
  }

  /** A null, boolean or number under `awsRegion` equals no key of the table and resolves to "US". */
  lemma NonStringScalarIsUS(awsRegion: Value)
    requires awsRegion.Null? || awsRegion.Bool? || awsRegion.Num?
    ensures IdentifyRegion(awsRegion) == Some("US")
  {
  }
}
