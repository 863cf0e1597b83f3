/** The tables the pages change through the database client, kept in memory.
    Each remote call of the pages becomes a step on these fields; whether the
    call fails is a parameter of the step (`fails`), since the service is not
    part of the model. */
module Store {
  import opened Common
  import opened Records

  class Database {
    var students: seq<Student>
    var lessons: seq<Lesson>
    var payments: seq<Payment>
    var subjects: seq<Subject>
    var resources: seq<Resource>
    var profiles: seq<TeacherProfile>
    /** The paths held in the `resources` storage bucket. */
    var files: set<string>
    /** The paths held in the `avatars` storage bucket. */
    var avatars: set<string>

    constructor(students: seq<Student>, lessons: seq<Lesson>, payments: seq<Payment>, subjects: seq<Subject>,
                resources: seq<Resource>, profiles: seq<TeacherProfile>, files: set<string>, avatars: set<string>)
      ensures this.students == students && this.lessons == lessons && this.payments == payments
      ensures this.subjects == subjects && this.resources == resources
      ensures this.profiles == profiles && this.files == files && this.avatars == avatars
    {
      this.students := students;
      this.lessons := lessons;
      this.payments := payments;
      this.subjects := subjects;
      this.resources := resources;
      this.profiles := profiles;
      this.files := files;
      this.avatars := avatars;
    }
  }
}
