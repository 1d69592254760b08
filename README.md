# Todo list and address book, modelled in Dafny

This project models two small Java console programs as verified Dafny.

- **Todo list** (`projects/todo.java`). A `TodoItem` holds a task, a done flag and a priority (1 High, 2 Medium, 3 Low). The menu keeps an ordered `ArrayList<TodoItem>` and offers four things: add an item, remove item number `n`, mark item number `n` done, and show an item as a line. Here `TodoItem` is a class whose only mutable field is `done`. `TodoList` is a class holding a sequence of `TodoItem` references. Add, Remove and Mark are methods that update that sequence, or one item in it, in place.
- **Address book** (`projects/AddressBook/addressbook.java`). The program keeps a static `ArrayList<ContactAddress>` and offers three operations: add a contact, search by name, and delete by name. Search and delete walk the list in order, compare each contact's name with the trimmed query using `equalsIgnoreCase`, and stop at the first match. Here `AddressBook` is a class holding a sequence of `ContactAddress` references. Its search and delete are the same `found`/`break` loops, proved against `FirstMatch` and `RemoveFirstMatch`.

Both programs read every line through `String.trim()`. `Text.Trim` models it exactly: Java strips characters up to U+0020 from both ends. `equalsIgnoreCase` is modelled with ASCII case folding.

Files:
- `wrappers.dfy`: `Option`.
- `text.dfy`: module `Text`, the Java string functions.
- `todo.dfy`: module `Todo`.
- `addressbook.dfy`: module `Address`.

Each menu operation becomes a method that takes the input the console would have read. The todo Add takes the raw task line and the parsed priority, with `None` standing for a `NumberFormatException`. Remove and Mark take the item number and return a `Status`: `Changed`, `NoItems` or `InvalidNumber`. These match the three branches of the source. The console messages themselves are not modelled.

## Model

| member | source | states |
|---|---|---|
| `Text.Trim` | projects/todo.java:87 | the trimmed line has no padding at either end, is no longer than the input, and is empty exactly when the input was all padding |
| `Text.TrimPadded` | projects/AddressBook/addressbook.java:99 | trimming removes exactly the padding: padding, then text without its own padding, then padding, trims to that text |
| `Text.TrimIdempotent` | projects/AddressBook/addressbook.java:79 | trimming an already trimmed line changes nothing |
| `Text.EqualsIgnoreCase` | projects/AddressBook/addressbook.java:83 | `equalsIgnoreCase`: the two strings have the same length and, at every position, the same character once the ASCII letters are folded to lower case; equal strings always compare equal |
| `Text.EqualsIgnoreCaseIsLowerEqual` | projects/AddressBook/addressbook.java:83 | the character-by-character case-insensitive comparison holds exactly when both names have the same lower-case form |
| `Todo.CoercePriority` | projects/todo.java:90-96 | the stored priority is always 1..3; a parsed 1, 2 or 3 is kept; a value out of range, or a parse failure, becomes 3 (Low) |
| `Todo.PriorityLabel` | projects/todo.java:37-41 | the label is "(High)" exactly for priority 1, "(Medium)" exactly for 2, and "(Low)" for every other value |
| `Todo.StatusMarker` | projects/todo.java:36 | the status box is "[✔]" exactly when the item is done, "[ ]" exactly when it is not |
| `Todo.Render` | projects/todo.java:42 | the line opens with the status box, then one space, the task, one space, and closes with the priority label; with the length this fixes every character of the line |
| `Todo.RenderDeterminesItem` | projects/todo.java:35-43 | two items that render to the same line have the same done flag, the same task and the same priority label |
| `Todo.TodoItem.constructor` | projects/todo.java:12-16 | a new item is not done and holds exactly the given task and priority |
| `Todo.TodoItem.MarkDone` | projects/todo.java:30-32 | afterwards the item is done and its task and priority are unchanged; marking a done item again changes nothing |
| `Todo.PositionStatus` | projects/todo.java:105-118 | an item number is acted on exactly when it is in 1..size; an empty list is reported as such, whatever number is given |
| `Todo.TodoList.constructor` | projects/todo.java:164 | a first run, with no saved file, starts from an empty list |
| `Todo.TodoList.Add` | projects/todo.java:87-102 | a line that trims to nothing adds nothing; otherwise exactly one not-done item with the trimmed task and the coerced priority is appended, and all earlier items are unchanged; every stored task stays non-empty and trimmed |
| `Todo.TodoList.Remove` | projects/todo.java:104-122 | for a number in 1..size, the item at that position goes, earlier items keep their places and later ones move down by one; for any other number, or on an empty list, nothing changes |
| `Todo.TodoList.Mark` | projects/todo.java:123-141 | for a number in 1..size, only the item at that position becomes done, and the list keeps its length, order and other items; for any other number, or on an empty list, nothing changes |
| `Address.ContactAddress.constructor` | projects/AddressBook/addressbook.java:127-138 | each getter gives back exactly the argument the constructor was passed |
| `Address.NameMatches` | projects/AddressBook/addressbook.java:106 | a contact matches a query exactly when its name equals the query under `equalsIgnoreCase`, that is, both have the same lower-case form (and so the same length) |
| `Address.FirstMatch` | projects/AddressBook/addressbook.java:82-89 | the position of the first contact, in list order, whose name matches; none exactly when no contact's name matches |
| `Address.RemoveFirstMatch` | projects/AddressBook/addressbook.java:103-111 | with a match, the list loses exactly one contact, the first match, and the others keep their order; without one, the list is unchanged |
| `Address.RemoveFirstMatchRemovesOne` | projects/AddressBook/addressbook.java:105-110 | deleting removes exactly one matching contact: the number of matches drops by one, so later contacts with the same name stay |
| `Address.AddressBook.constructor` | projects/AddressBook/addressbook.java:10 | the address book starts empty |
| `Address.AddressBook.AddContact` | projects/AddressBook/addressbook.java:46-59 | exactly one new contact, built from the four trimmed lines, is appended at the end; existing contacts are unchanged |
| `Address.AddressBook.SearchContact` | projects/AddressBook/addressbook.java:77-94 | reports the first contact whose name equals the trimmed query ignoring case, and reports not-found exactly when no name matches; the list is not changed |
| `Address.AddressBook.DeleteContact` | projects/AddressBook/addressbook.java:97-117 | reports found exactly when some name equals the trimmed query ignoring case; the new list is the old one with its first match removed, or unchanged when nothing matches |

`Todo.Walkthrough` and `Todo.WalkthroughRemove` are client methods. They use only the contracts above. They replay a short session: add two items, mark the first, give an item number past the end, then remove the first item.

## Left out

- `saveTodoList` and `loadTodoList` (projects/todo.java:152-171): file I/O through Java object serialization, which has no stated format. The one load path that is modelled is the missing file, which gives an empty list (`Todo.TodoList.constructor`). Save failures and the loss of updates they can cause are not modelled.
- The menu loops, `Scanner` reading and every `System.out` message in both programs: this is console I/O. The methods take the values the console would have read.
- Todo.TodoList.Remove: a number that does not parse (projects/todo.java:119-121, 138-140) is not an input of the model. In the source it prints a message and leaves the list unchanged, just as an out-of-range number does.
- Printing the todo list (projects/todo.java:56-62) and `viewContacts` (projects/AddressBook/addressbook.java:62-74): output only. `TodoList.Contents` is the list they show.
- `ContactAddress.toString` (projects/AddressBook/addressbook.java:141-145): presentation only.
- Text.EqualsIgnoreCase: folds only the ASCII letters A-Z. Java's `equalsIgnoreCase` also folds the rest of Unicode, so names that differ only in non-ASCII case compare as different in the model.
- `TodoItem.task` and `TodoItem.priority` are plain fields in Java but are never reassigned, so the model makes them constants. The getters `getTask`, `isDone` and `getPriority` are read through `TodoItem.View`.
- The static `contacts` list is modelled as a field of an `AddressBook` object.
- 32-bit `int`: priorities and item numbers are unbounded integers here. No arithmetic in the modelled code can overflow, because `num - 1` is only computed when `num > 0`.
- projects/Bankaccountmanagment/bankmanagment.java and projects/Guessing game/Guessinggame.java are not part of this model. Their logic is floating-point balances, random numbers and console I/O.
