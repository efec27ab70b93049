/**
 * A department, as the employee handlers read it through its getters
 * `getName`, `getDescription` and `getCompany`.
 */
module Departments {

  datatype Department = Department(name: string, description: string, company: string)
}
