/** The fixed set of account roles and the membership test Register applies. */
module UserRoles {

  const Admin: string := "Admin"
  const Manager: string := "Manager"
  const Teacher: string := "Teacher"
  const Assistant: string := "Assistant"
  const Student: string := "Student"

  /** The roles in the order the source lists them. */
  const AllRoles: seq<string> := [Admin, Manager, Student, Teacher, Assistant]

  /** `AllRoles.Contains(role)`: ordinal string equality, no case folding. */
  function IsValidRole(role: string): (b: bool)
    ensures b <==> role == Admin || role == Manager || role == Teacher
                   || role == Assistant || role == Student
  {
    role in AllRoles
  }

  /** The five constants are pairwise distinct, so AllRoles has five different entries. */
  lemma AllRolesHasFiveDistinct()
    ensures |AllRoles| == 5
    ensures forall i, j | 0 <= i < j < |AllRoles| :: AllRoles[i] != AllRoles[j]
  {
  }

  /** Membership is exact: a role differing only in letter case is rejected. */
  lemma LowerCaseAdminIsNotARole()
    ensures !IsValidRole("admin")
  {
  }
}
