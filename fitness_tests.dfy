/** The five fitness tests, named as both the benchmark tables and the video
    catalogue key them. */
module FitnessTests {

  const VerticalJump: string := "Vertical Jump"
  const SitUps: string := "Sit-ups (1 minute)"
  const Sprint: string := "50m Sprint"
  const PushUps: string := "Push-ups"
  const Flexibility: string := "Flexibility Test"

  /** The known test types, in the order the tables declare them. */
  const TestTypes: seq<string> := [VerticalJump, SitUps, Sprint, PushUps, Flexibility]

  /** The five names are pairwise different. */
  lemma TestTypesDistinct()
    ensures VerticalJump != SitUps && VerticalJump != Sprint && VerticalJump != PushUps && VerticalJump != Flexibility
    ensures SitUps != Sprint && SitUps != PushUps && SitUps != Flexibility
    ensures Sprint != PushUps && Sprint != Flexibility && PushUps != Flexibility
  {
    assert VerticalJump[0] == 'V' && SitUps[0] == 'S' && Sprint[0] == '5' && PushUps[0] == 'P' && Flexibility[0] == 'F';
  }
}
