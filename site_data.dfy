/** The static site data: characters with their images, and the personal
    profile shown on the home page. */
module SiteData {
  import opened Seqs

  /** One image of a character. */
  datatype CharacterImage = CharacterImage(name: string, description: string, src: string)

  /** A character and its images, in display order. */
  datatype Character = Character(id: string, name: string, images: seq<CharacterImage>)

  /** A social link; `icon` is optional markup. */
  datatype SocialLink = SocialLink(name: string, url: string, icon: Option<string>)

  /** The personal profile: avatar, name, description lines and links. */
  datatype Profile = Profile(avatar: string, name: string, description: seq<string>, links: seq<SocialLink>)

  /** The two view modes of the selector modals. */
  datatype ViewMode = Grid | List
}
