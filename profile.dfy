/** The profile editor: one `profile` record that every handler replaces by an updated copy. */
module Profile {
  import opened Sequences

  datatype Experience = Experience(title: string, company: string, duration: string)
  datatype Education = Education(degree: string, institution: string, year: string)

  /** The string-valued fields of the profile, by the input's `name`. */
  datatype ProfileField =
    Email | Name | Pfp | FirstName | LastName | ProfilePicture | Location | Bio | Linkedin | Github
  datatype ExperienceField = Title | Company | Duration
  datatype EducationField = Degree | Institution | Year

  datatype ProfileData = ProfileData(
    email: string,
    name: string,
    pfp: string,
    firstName: string,
    lastName: string,
    profilePicture: string,
    location: string,
    bio: string,
    linkedin: string,
    github: string,
    sheetVisibility: bool,
    experiences: seq<Experience>,
    education: seq<Education>)

  /** Every text field empty, no experience, no education, private sheet. */
  const InitialProfile: ProfileData :=
    ProfileData("", "", "", "", "", "", "", "", "", "", false, [], [])

  function Get(p: ProfileData, f: ProfileField): string {
    match f
    case Email => p.email
    case Name => p.name
    case Pfp => p.pfp
    case FirstName => p.firstName
    case LastName => p.lastName
    case ProfilePicture => p.profilePicture
    case Location => p.location
    case Bio => p.bio
    case Linkedin => p.linkedin
    case Github => p.github
  }

  /** `{ ...prev, [name]: value }`: the named field takes the value, every other field stays. */
  function Set(p: ProfileData, f: ProfileField, value: string): (r: ProfileData)
    ensures Get(r, f) == value
    ensures forall g :: g != f ==> Get(r, g) == Get(p, g)
    ensures r.sheetVisibility == p.sheetVisibility
    ensures r.experiences == p.experiences && r.education == p.education
  {
    match f
    case Email => p.(email := value)
    case Name => p.(name := value)
    case Pfp => p.(pfp := value)
    case FirstName => p.(firstName := value)
    case LastName => p.(lastName := value)
    case ProfilePicture => p.(profilePicture := value)
    case Location => p.(location := value)
    case Bio => p.(bio := value)
    case Linkedin => p.(linkedin := value)
    case Github => p.(github := value)
  }

  /** Setting a field to the value it already has changes nothing. */
  lemma SetUnchanged(p: ProfileData, f: ProfileField)
    ensures Set(p, f, Get(p, f)) == p
  {
  }

  /** The initial profile has every text field empty. */
  lemma InitialProfileEmpty()
    ensures forall f :: Get(InitialProfile, f) == ""
    ensures InitialProfile.experiences == [] && InitialProfile.education == []
    ensures !InitialProfile.sheetVisibility
  {
  }

  function GetExperience(e: Experience, f: ExperienceField): string {
    match f
    case Title => e.title
    case Company => e.company
    case Duration => e.duration
  }

  /** `{ ...exp, [field]: value }`. */
  function SetExperience(e: Experience, f: ExperienceField, value: string): (r: Experience)
    ensures GetExperience(r, f) == value
    ensures forall g :: g != f ==> GetExperience(r, g) == GetExperience(e, g)
  {
    match f
    case Title => e.(title := value)
    case Company => e.(company := value)
    case Duration => e.(duration := value)
  }

  function GetEducation(e: Education, f: EducationField): string {
    match f
    case Degree => e.degree
    case Institution => e.institution
    case Year => e.year
  }

  /** `{ ...edu, [field]: value }`. */
  function SetEducation(e: Education, f: EducationField, value: string): (r: Education)
    ensures GetEducation(r, f) == value
    ensures forall g :: g != f ==> GetEducation(r, g) == GetEducation(e, g)
  {
    match f
    case Degree => e.(degree := value)
    case Institution => e.(institution := value)
    case Year => e.(year := value)
  }

  const EmptyExperience: Experience := Experience("", "", "")
  const EmptyEducation: Education := Education("", "", "")

  /** Removing the entry just added gives back the list as it was. */
  lemma {:induction false} RemoveAfterAdd<T>(s: seq<T>, x: T)
    ensures RemoveAt(s + [x], |s|) == s
  {
    assert (s + [x])[..|s|] == s;
  }

  class Component {
    var profile: ProfileData

    constructor ()
      ensures profile == InitialProfile
    {
      profile := InitialProfile;
    }

    /** `handleChange` for the input called `name`. */
    method HandleChange(name: ProfileField, value: string)
      modifies this
      ensures profile == Set(old(profile), name, value)
    {
      profile := Set(profile, name, value);
    }

    /** `handleSwitchChange`: only `sheetVisibility` changes, to `checked`. */
    method HandleSwitchChange(checked: bool)
      modifies this
      ensures profile == old(profile).(sheetVisibility := checked)
    {
      profile := profile.(sheetVisibility := checked);
    }

    /** `addExperience`: one all-empty entry at the end. */
    method AddExperience()
      modifies this
      ensures profile == old(profile).(experiences := old(profile).experiences + [EmptyExperience])
    {
      profile := profile.(experiences := profile.experiences + [EmptyExperience]);
    }

    /** `updateExperience`: field `field` of entry `index` takes `value`; an index out of range
        changes nothing. */
    method UpdateExperience(index: int, field: ExperienceField, value: string)
      modifies this
      ensures profile == old(profile).(experiences := UpdateAt(old(profile).experiences, index,
                                                               e => SetExperience(e, field, value)))
    {
      profile := profile.(experiences := UpdateAt(profile.experiences, index, e => SetExperience(e, field, value)));
    }

    /** `removeExperience`: drops entry `index` and keeps the rest in order. */
    method RemoveExperience(index: int)
      modifies this
      ensures profile == old(profile).(experiences := RemoveAt(old(profile).experiences, index))
    {
      profile := profile.(experiences := RemoveAt(profile.experiences, index));
    }

    /** `addEducation`: one all-empty entry at the end. */
    method AddEducation()
      modifies this
      ensures profile == old(profile).(education := old(profile).education + [EmptyEducation])
    {
      profile := profile.(education := profile.education + [EmptyEducation]);
    }

    /** `updateEducation`. */
    method UpdateEducation(index: int, field: EducationField, value: string)
      modifies this
      ensures profile == old(profile).(education := UpdateAt(old(profile).education, index,
                                                             e => SetEducation(e, field, value)))
    {
      profile := profile.(education := UpdateAt(profile.education, index, e => SetEducation(e, field, value)));
    }

    /** `removeEducation`. */
    method RemoveEducation(index: int)
      modifies this
      ensures profile == old(profile).(education := RemoveAt(old(profile).education, index))
    {
      profile := profile.(education := RemoveAt(profile.education, index));
    }
  }
}
