/** The project record served by `data/projects.json`. */
module Records {
  import opened Common

  /** One promoted work item. `id` is optional; `date` is the record's date reduced to an
      integer key (its millisecond timestamp), which is all the date ordering looks at. */
  datatype Project = Project(
    id: Option<string>,
    title: string,
    image: string,
    badge: string,
    description: string,
    link: string,
    date: int)
}
