/**
 * The `Student` record of the struct exercise: a name and a major that the
 * setters overwrite in place through `&mut self`.
 */
module RustStruct {

  class Student {
    var name: string
    var major: string

    /** `Student::new`: stores exactly the given name and major. */
    constructor (n: string, m: string)
      ensures name == n && major == m
    {
      name := n;
      major := m;
    }

    /** `get_name`: the current name. */
    method GetName() returns (r: string)
      ensures r == name
    {
      return name;
    }

    /** `set_name`: replaces the name; the major is untouched. */
    method SetName(newName: string)
      modifies this
      ensures name == newName
      ensures major == old(major)
    {
      name := newName;
    }

    /** `get_major`: the current major. */
    method GetMajor() returns (r: string)
      ensures r == major
    {
      return major;
    }

    /** `set_major`: replaces the major; the name is untouched. */
    method SetMajor(newMajor: string)
      modifies this
      ensures major == newMajor
      ensures name == old(name)
    {
      major := newMajor;
    }
  }

  /**
   * The program's use of the record: after both setters the getters return the
   * new values.
   */
  method UpdateStudent() returns (name: string, major: string)
    ensures name == "Julian M. Gutierrez" && major == "Computer Science"
  {
    var student := new Student("Julian Gutierrez", "Computer Engineering");
    student.SetName("Julian M. Gutierrez");
    student.SetMajor("Computer Science");
    name := student.GetName();
    major := student.GetMajor();
  }
}
