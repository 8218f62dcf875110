/** The closed set of publishing platforms the service knows. */
module Platforms {
  import opened Basics

  datatype Platform = Twitter | LinkedIn | DevTo | GitHub | Newsletter

  /** The identifier a request uses for a platform. */
  function Id(p: Platform): string {
    match p
    case Twitter => "twitter"
    case LinkedIn => "linkedin"
    case DevTo => "devto"
    case GitHub => "github"
    case Newsletter => "newsletter"
  }

  /** The platforms in their fixed order. */
  const AllPlatforms: seq<Platform> := [Twitter, LinkedIn, DevTo, GitHub, Newsletter]

  /** `ALLOWED_PLATFORMS`: the identifiers, in the same order. */
  const AllowedPlatforms: seq<string> := ["twitter", "linkedin", "devto", "github", "newsletter"]

  /** The platform an identifier names, if it names one. */
  function Parse(s: string): (r: Option<Platform>)
    ensures r.Some? <==> s in AllowedPlatforms
    ensures r.Some? ==> Id(r.value) == s
  {
    if s == "twitter" then Some(Twitter)
    else if s == "linkedin" then Some(LinkedIn)
    else if s == "devto" then Some(DevTo)
    else if s == "github" then Some(GitHub)
    else if s == "newsletter" then Some(Newsletter)
    else None
  }

  /** Identifiers and platforms are in one-to-one correspondence. */
  lemma ParseId(p: Platform)
    ensures Parse(Id(p)) == Some(p)
    ensures Id(p) in AllowedPlatforms
  {
  }

  lemma AllowedAreIds()
    ensures |AllPlatforms| == |AllowedPlatforms| == 5
    ensures forall i :: 0 <= i < 5 ==> AllowedPlatforms[i] == Id(AllPlatforms[i])
    ensures forall p: Platform :: p in AllPlatforms
  {
    forall p: Platform ensures p in AllPlatforms {
      match p
      case Twitter => assert AllPlatforms[0] == p;
      case LinkedIn => assert AllPlatforms[1] == p;
      case DevTo => assert AllPlatforms[2] == p;
      case GitHub => assert AllPlatforms[3] == p;
      case Newsletter => assert AllPlatforms[4] == p;
    }
  }
}
