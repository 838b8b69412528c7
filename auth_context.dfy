/** The in-memory session: one nullable `user`, set by `login` and `signup`
    and cleared by `logout`. Neither operation looks at the password. */
module AuthContext {
  import opened Wrappers
  import opened Text

  datatype Role = Student | Organizer

  datatype User = User(email: string, role: Role)

  /** The institutional suffix a student's email must end with (case-sensitive). */
  const STUDENT_EMAIL_SUFFIX: string := "@college.edu"

  /** The acceptance rule shared by `login` and `signup`: students need the
      institutional suffix, organizers are accepted with any email. */
  predicate Admits(email: string, role: Role)
    ensures role == Organizer ==> Admits(email, role)
    ensures role == Student ==> (Admits(email, role) <==> EndsWith(email, STUDENT_EMAIL_SUFFIX))
  {
    !(role == Student && !EndsWith(email, STUDENT_EMAIL_SUFFIX))
  }

  /** A student is admitted exactly when the email is some text followed by
      the suffix; an organizer always is. */
  lemma AdmitsIff(email: string, role: Role)
    ensures Admits(email, role) <==>
      role == Organizer || exists p: string :: email == p + STUDENT_EMAIL_SUFFIX
  {
    EndsWithIff(email, STUDENT_EMAIL_SUFFIX);
  }

  /** The suffix test does not fold case, and a bare "college.edu" without the
      "@" is not enough. */
  lemma SuffixIsCaseSensitive()
    ensures Admits("ana@college.edu", Student)
    ensures !Admits("ana@COLLEGE.EDU", Student)
    ensures !Admits("ana.college.edu", Student)
    ensures Admits("ana@COLLEGE.EDU", Organizer)
  {
    assert "ana@college.edu"[3..] == STUDENT_EMAIL_SUFFIX;
    assert "ana@COLLEGE.EDU"[3..][1] != STUDENT_EMAIL_SUFFIX[1];
    assert "ana.college.edu"[3..][0] != STUDENT_EMAIL_SUFFIX[0];
  }

  class AuthProvider {
    var user: Option<User>

    /** No one is signed in at first. */
    constructor ()
      ensures user == None
    {
      user := None;
    }

    /** Signs in when `Admits(email, role)`; otherwise fails and leaves the
        session as it was. */
    method Login(email: string, password: string, role: Role) returns (ok: bool)
      modifies this
      ensures ok <==> Admits(email, role)
      ensures user == if ok then Some(User(email, role)) else old(user)
    {
      if role == Student && !EndsWith(email, STUDENT_EMAIL_SUFFIX) {
        return false;
      }
      user := Some(User(email, role));
      return true;
    }

    /** Same rule and same effect as `Login`. */
    method Signup(email: string, password: string, role: Role) returns (ok: bool)
      modifies this
      ensures ok <==> Admits(email, role)
      ensures user == if ok then Some(User(email, role)) else old(user)
    {
      if role == Student && !EndsWith(email, STUDENT_EMAIL_SUFFIX) {
        return false;
      }
      user := Some(User(email, role));
      return true;
    }

    /** Clears the session from any state. */
    method Logout()
      modifies this
      ensures user == None
    {
      user := None;
    }
  }

  /** A caller's view: after a successful login the session holds exactly the
      credentials given, a student with a foreign email is refused without
      disturbing it, and logout empties it. */
  method SessionScenario(password: string)
  {
    var auth := new AuthProvider();
    var ok := auth.Login("dev@gmail.com", password, Student);
    assert !ok by {
      assert "dev@gmail.com"[1..][0] != STUDENT_EMAIL_SUFFIX[0];
    }
    assert auth.user == None;
    ok := auth.Signup("dev@gmail.com", password, Organizer);
    assert ok && auth.user == Some(User("dev@gmail.com", Organizer));
    ok := auth.Login("ana@college.edu", password, Student);
    assert ok by {
      assert "ana@college.edu"[3..] == STUDENT_EMAIL_SUFFIX;
    }
    assert auth.user == Some(User("ana@college.edu", Student));
    auth.Logout();
    assert auth.user == None;
  }
}
