/**
 * The team section: the members, ordered by display order on a copy of the
 * list, each with a photo or the initials of their name, and a button for
 * each social link they have.
 */
module TeamSection {
  import opened Wrappers
  import opened Strings
  import opened Sorting
  import opened Seqs

  datatype SocialLinks = SocialLinks(twitter: Option<string>, linkedin: Option<string>, github: Option<string>)

  datatype TeamMemberProfile = TeamMemberProfile(
    id: string, name: string, role: string, focus: string,
    photoUrl: Option<string>, displayOrder: int, socialLinks: Option<SocialLinks>)

  function DisplayOrder(m: TeamMemberProfile): int { m.displayOrder }

  /** The members shown, or None where the section renders nothing: no list, or an empty one. */
  function ShownMembers(members: Option<seq<TeamMemberProfile>>): (r: Option<seq<TeamMemberProfile>>)
    ensures r.None? <==> members.None? || |members.value| == 0
    ensures r.Some? ==> SortedBy(r.value, DisplayOrder) && multiset(r.value) == multiset(members.value)
  {
    if members.None? || |members.value| == 0 then None else Some(SortBy(members.value, DisplayOrder))
  }

  /** Members with the same display order keep the order they have in the input list. */
  lemma ShownMembersStable(members: seq<TeamMemberProfile>, k: int)
    requires |members| > 0
    ensures WithKey(ShownMembers(Some(members)).value, DisplayOrder, k) == WithKey(members, DisplayOrder, k)
  {
    SortByStable(members, DisplayOrder, k);
  }

  /** `n[0]` of one segment; the first character of an empty segment is `undefined`, which `join` writes as nothing. */
  function Initial(segment: string): string {
    if |segment| == 0 then "" else [segment[0]]
  }

  /** `name.split(' ').map(n => n[0]).join('')`. */
  function Initials(name: string): string {
    FlatMap(Split(name, ' '), Initial)
  }

  predicate NonEmpty(s: string) { |s| > 0 }

  /** The initials are the first characters of the non-empty segments, in order. */
  lemma {:induction false} InitialsOfSegments(parts: seq<string>)
    ensures var words := Filter(parts, NonEmpty);
      |FlatMap(parts, Initial)| == |words|
      && forall i :: 0 <= i < |words| ==> FlatMap(parts, Initial)[i] == words[i][0]
  {
    if |parts| > 0 {
      var init, last := parts[..|parts| - 1], parts[|parts| - 1];
      assert parts == init + [last];
      InitialsOfSegments(init);
    }
  }

  /** Empty segments, from repeated, leading or trailing spaces, contribute nothing to the initials. */
  lemma InitialsSkipEmptySegments(name: string)
    ensures var words := Filter(Split(name, ' '), NonEmpty);
      |Initials(name)| == |words|
      && forall i :: 0 <= i < |words| ==> Initials(name)[i] == words[i][0]
  {
    InitialsOfSegments(Split(name, ' '));
  }

  /** A name of words separated by single spaces has one initial per word: the word's first character. */
  lemma InitialsOfWords(words: seq<string>)
    requires |words| >= 1
    requires forall i :: 0 <= i < |words| ==> |words[i]| > 0 && ' ' !in words[i]
    ensures |Initials(Join(words, " "))| == |words|
    ensures forall i :: 0 <= i < |words| ==> Initials(Join(words, " "))[i] == words[i][0]
  {
    SplitJoin(words, ' ');
    FilterUnchanged(words, NonEmpty);
    InitialsOfSegments(words);
  }

  /** The photo when `photoUrl` is a non-empty string, the initials otherwise. */
  datatype Avatar = Photo(src: string, alt: string) | InitialsAvatar(text: string)

  function AvatarOf(m: TeamMemberProfile): (r: Avatar)
    ensures r.Photo? <==> m.photoUrl.Some? && m.photoUrl.value != ""
    ensures r.Photo? ==> r.src == m.photoUrl.value && r.alt == m.name
    ensures r.InitialsAvatar? ==> r.text == Initials(m.name)
  {
    if m.photoUrl.Some? && m.photoUrl.value != "" then Photo(m.photoUrl.value, m.name) else InitialsAvatar(Initials(m.name))
  }

  datatype Network = Twitter | LinkedIn | GitHub

  function NetworkName(n: Network): string {
    match n
    case Twitter => "Twitter"
    case LinkedIn => "LinkedIn"
    case GitHub => "GitHub"
  }

  function LinkOf(links: SocialLinks, n: Network): Option<string> {
    match n
    case Twitter => links.twitter
    case LinkedIn => links.linkedin
    case GitHub => links.github
  }

  datatype SocialButton = SocialButton(network: Network, href: string, ariaLabel: string)

  /** The button for one network, present when its link is a non-empty string. */
  function ButtonFor(name: string, links: SocialLinks, n: Network): seq<SocialButton> {
    var link := LinkOf(links, n);
    if link.Some? && link.value != "" then [SocialButton(n, link.value, name + " on " + NetworkName(n))] else []
  }

  /** The social buttons, in the order Twitter, LinkedIn, GitHub. */
  function SocialButtons(m: TeamMemberProfile): seq<SocialButton> {
    if m.socialLinks.None? then []
    else
      var links := m.socialLinks.value;
      ButtonFor(m.name, links, Twitter) + ButtonFor(m.name, links, LinkedIn) + ButtonFor(m.name, links, GitHub)
  }

  function Rank(n: Network): nat {
    match n
    case Twitter => 0
    case LinkedIn => 1
    case GitHub => 2
  }

  /** A button for a network appears exactly when the member has a non-empty link for it. */
  lemma SocialButtonPresent(m: TeamMemberProfile, n: Network)
    ensures (exists i :: 0 <= i < |SocialButtons(m)| && SocialButtons(m)[i].network == n) <==>
      m.socialLinks.Some? && LinkOf(m.socialLinks.value, n).Some? && LinkOf(m.socialLinks.value, n).value != ""
  {
    if m.socialLinks.Some? {
      var links := m.socialLinks.value;
      var t, l, g := ButtonFor(m.name, links, Twitter), ButtonFor(m.name, links, LinkedIn), ButtonFor(m.name, links, GitHub);
      var buttons := SocialButtons(m);
      assert buttons == t + l + g;
      if LinkOf(links, n).Some? && LinkOf(links, n).value != "" {
        var i := match n case Twitter => 0 case LinkedIn => |t| case GitHub => |t| + |l|;
        assert buttons[i].network == n;
      }
    }
  }

  /** Each button points at its network's link, is labelled with the member's name, and the buttons keep the order Twitter, LinkedIn, GitHub. */
  lemma SocialButtonsOrdered(m: TeamMemberProfile)
    ensures var buttons := SocialButtons(m);
      forall i :: 0 <= i < |buttons| ==>
        LinkOf(m.socialLinks.value, buttons[i].network) == Some(buttons[i].href)
        && buttons[i].ariaLabel == m.name + " on " + NetworkName(buttons[i].network)
    ensures var buttons := SocialButtons(m);
      forall i, j :: 0 <= i < j < |buttons| ==> Rank(buttons[i].network) < Rank(buttons[j].network)
  {
  }
}
