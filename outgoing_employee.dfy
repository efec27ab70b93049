/**
 * OutgoingEmployee: the immutable, flattened view an employee handler sends
 * back. Its seven fields are fixed at construction and have getters only,
 * so it is a value.
 */
module OutgoingEmployees {

  datatype OutgoingEmployee = OutgoingEmployee(
    employeeId: string,
    givenName: string,
    lastName: string,
    email: string,
    departmentName: string,
    departmentDescription: string,
    company: string)
  {
    /** The getters, in constructor order. */
    function Getters(): (g: seq<string>)
      ensures |g| == 7
      ensures OutgoingEmployee(g[0], g[1], g[2], g[3], g[4], g[5], g[6]) == this
    {
      [employeeId, givenName, lastName, email, departmentName, departmentDescription, company]
    }
  }

  /**
   * A view is nothing but its seven getters: two views are equal exactly when
   * every getter agrees, so there is no further (department id) field.
   */
  lemma ViewIsItsGetters(v: OutgoingEmployee, w: OutgoingEmployee)
    ensures v == w <==> v.Getters() == w.Getters()
  {
    if v.Getters() == w.Getters() {
      assert v == OutgoingEmployee(v.Getters()[0], v.Getters()[1], v.Getters()[2], v.Getters()[3],
                                   v.Getters()[4], v.Getters()[5], v.Getters()[6]);
    }
  }
}
