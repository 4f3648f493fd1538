// The records the page scripts read from the site's JSON files.

module Content {
  /** An entry of `timeline.json`. */
  datatype Milestone = Milestone(year: string, title: string, description: string)

  /** An entry of `skills.json`; `level` is a percentage. */
  datatype Skill = Skill(name: string, category: string, level: int, icon: string)

  /** An entry of `projects.json`. A missing `githubUrl` is the empty string,
      which the scripts treat like an absent one. */
  datatype Project = Project(
    id: int,
    title: string,
    category: string,
    image: string,
    description: string,
    technologies: seq<string>,
    liveUrl: string,
    githubUrl: string)

  /** An entry of `testimonials.json`. */
  datatype Testimonial = Testimonial(quote: string, name: string, company: string, location: string, rating: int)
}
