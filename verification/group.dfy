/** The group a configuration request is made in. */
module Group {
  import opened Wrappers

  /** The registry's default group name. */
  const DEFAULT_GROUP: string := "DEFAULT_GROUP"

  /** A configured group is used as it is; an absent one becomes the default. */
  function ResolveGroup(group: Option<string>): (g: string)
    ensures group.Some? ==> g == group.value
    ensures group.None? ==> g == DEFAULT_GROUP
  {
    match group
    case Some(name) => name
    case None => DEFAULT_GROUP
  }
}
