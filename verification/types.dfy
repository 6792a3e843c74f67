/**
 * The records the deck works on, and the fixed seed list the deck starts
 * from and reshuffles back to.
 */
module Types {

  /** A candidate profile; never mutated after creation. */
  datatype Profile = Profile(
    id: string,
    name: string,
    age: int,
    bio: string,
    videoUrl: string,
    location: string,
    tags: seq<string>)

  /** A published match: the matched profile and its congratulatory text. */
  datatype MatchResult = MatchResult(profile: Profile, message: string)

  /** The profiles' identifiers, in deck order. */
  function Ids(ps: seq<Profile>): (ids: seq<string>)
    ensures |ids| == |ps|
  {
    seq(|ps|, i requires 0 <= i < |ps| => ps[i].id)
  }

  /** No two profiles of `ps` share an identifier. */
  predicate DistinctIds(ps: seq<Profile>)
  {
    forall i, j :: 0 <= i < j < |ps| ==> ps[i].id != ps[j].id
  }

  const VideoUrl: string :=
    "https://video.twimg.com/amplify_video/1991092264043782144/vid/avc1/360x640/DCGrgfORL1NgTyI6.mp4"

  /** The seed list the application starts with. */
  const MockProfiles: seq<Profile> := [
    Profile("1", "あみ", 21,
      "ビデオで遊ぼ💛 お手伝いしてあげる💜 寂しい夜は一緒に過ごそう？今すぐ通話していいよ！",
      VideoUrl, "", []),
    Profile("2", "りな", 23,
      "内緒の話、しよ？🤫 誰にも言えない秘密を共有できる関係が理想です✨ 準備はいい？今ならすぐ出れるよ！",
      VideoUrl, "", []),
    Profile("3", "もか", 20,
      "甘えん坊な女の子です🎀 ギュッてしてほしいな。あなたのタイプを教えて？画面越しにイチャイチャしたいな。",
      VideoUrl, "", [])
  ]

  /** The seed list has three entries with pairwise distinct identifiers. */
  lemma MockProfilesDistinct()
    ensures |MockProfiles| == 3
    ensures Ids(MockProfiles) == ["1", "2", "3"]
    ensures DistinctIds(MockProfiles)
  {
  }
}
