/** The standalone scheduling dialog component: its role and duration
    options. Its role list is `Catalog.RoleOptions` over the listing it is
    given, and its durations are `Catalog.Durations`. */
module InterviewFormComponent {
  import opened Catalog

  /** With the default empty listing there is nothing to choose from. */
  lemma DefaultListingHasNoRoles()
    ensures RoleOptions([]) == []
  {
    assert forall t :: t !in RoleOptions([]);
  }
}
