# Window-function builder adapters

This project models the window-function builders of the MariaDB ColumnStore
server's SQL layer. The grammar looks up a builder by function name. It then
calls the builder's list-taking `create` with the function name and the raw
argument list. The builder either returns a window-function call item
(`Item_func_window`) or returns NULL after recording `ERR_WF_WRONG_ARGS`
against the session.

The fixed-arity adapters `Create_window_func_arg0` to `arg3` all follow the same steps:

1. Count the arguments. A NULL list counts as zero.
2. If the count is not the adapter's arity, report the error and return NULL.
3. Pop the arguments from the front of the list.
4. If any popped argument carries an explicit alias (`is_autogenerated_name` is false), report the error and return NULL.
5. Otherwise pass the popped items, in order, to the typed `create` overload, which builds the call item.

The Dafny model (`window_function_builders.dfy`, module `ItemCreateWindowFunction`) has these parts:

- `Item` is an argument expression with its `isAutogeneratedName` flag.
- `ItemList` is the caller's list, a class over a `seq` that `Pop` consumes from the front. A NULL list is a null `ItemList?`.
- `Thd` is the session. Only its error state is modelled, as an appended log of `Diagnostic(error, functionName)`.
- `WindowFunctionItem` is the call item: the function name and the arguments in order.
- `CreateSpec(arity, name, list)` is a pure function giving the outcome of one call. The outcome has three parts: the item or None, the diagnostics reported, and what is left of the list.
- The four builder classes `CreateWindowFuncArg0`–`CreateWindowFuncArg3` follow the source's classes. Each has a `respectNulls` field and a constructor that sets it to true. Each list-taking `Create` method is proved equal to `CreateSpec` at its arity: same result, same appended diagnostics, same final list. Each typed `Build` function is one of the typed `create` overloads.
- `CreateWindowFuncNthValue` holds the `respectNulls` and `fromFirst` fields and their defaults.
- The lemmas below `CreateSpec` state what the adapters promise.

The source reports the same `ERR_WF_WRONG_ARGS`, naming the function, both for a wrong argument count and for an aliased argument (lines 83, 127, 137, 182, 194, 238 and 250). The model therefore has one error identifier.

## Model

| member | source | states |
|---|---|---|
| `ItemCreateWindowFunction.CreateSpec` | sql/item_create_window_function.h:47-58 | every call either returns an item and reports nothing, or returns NULL and reports exactly one ERR_WF_WRONG_ARGS naming the function |
| `ItemCreateWindowFunction.WrongCountRejected` | sql/item_create_window_function.h:74-85 | when the argument count (0 for a NULL list) differs from the arity, the result is NULL, exactly one ERR_WF_WRONG_ARGS naming the function is reported, and the list is left unchanged |
| `ItemCreateWindowFunction.AbsentListAcceptedOnlyByArity0` | sql/item_create_window_function.h:118-129 | a NULL list builds an argument-less item under arity 0 and is rejected by every other arity before any pop, so it is never dereferenced |
| `ItemCreateWindowFunction.AliasedArgumentRejected` | sql/item_create_window_function.h:186-196 | with the right count, an alias on any one argument makes the result NULL and reports exactly one ERR_WF_WRONG_ARGS naming the function |
| `ItemCreateWindowFunction.AcceptedIff` | sql/item_create_window_function.h:242-254 | an item is built exactly when the count matches and no argument is aliased; it then carries the function name and the input arguments in their original left-to-right order, arity many, and nothing is reported |
| `ItemCreateWindowFunction.CountMatchDrainsList` | sql/item_create_window_function.h:242-244 | once the count check passes, the list ends empty, whether the alias check then passes or fails |
| `ItemCreateWindowFunction.AnyAliasedIff` | sql/item_create_window_function.h:246-248 | the chained `!is_autogenerated_name` test over the popped arguments holds exactly when some argument carries an alias |
| `ItemCreateWindowFunction.ArgCount` | sql/item_create_window_function.h:118-121 | the counted arguments are zero exactly when the list is NULL or empty |
| `ItemCreateWindowFunction.AnyAliased` | sql/item_create_window_function.h:189-190 | the chained alias test fails on no arguments and holds as soon as the first popped argument carries an alias |
| `ItemCreateWindowFunction.Drained` | sql/item_create_window_function.h:186-187 | after every argument is popped the caller's list is empty, and a NULL list stays NULL |
| `ItemCreateWindowFunction.Params` | sql/item_create_window_function.h:74-77 | the argument sequence of a possibly NULL list has exactly the counted number of elements |
| `ItemCreateWindowFunction.ListState` | sql/item_create_window_function.h:55 | the abstract list is absent exactly when the caller passed NULL |
| `ItemCreateWindowFunction.Thd.SetError` | sql/item_create_window_function.h:81-83 | reporting appends one (ERR_WF_WRONG_ARGS, function name) entry to the session's errors and changes nothing else |
| `ItemCreateWindowFunction.ItemList.Elements` | sql/item_create_window_function.h:76-77 | the element count is zero exactly when the list is empty |
| `ItemCreateWindowFunction.ItemList.Pop` | sql/item_create_window_function.h:131 | popping removes and returns the first element, leaving the rest in order |
| `ItemCreateWindowFunction.CreateWindowFuncArg0.constructor` | sql/item_create_window_function.h:45 | a fresh arity-0 builder has respectNulls set |
| `ItemCreateWindowFunction.CreateWindowFuncArg0.Create` | sql/item_create_window_function.h:72-88 | the result, the appended diagnostics and the final list are those of CreateSpec at arity 0 |
| `ItemCreateWindowFunction.CreateWindowFuncArg0.Build` | sql/item_create_window_function.h:96-99 | the typed constructor builds an item naming the function with no arguments |
| `ItemCreateWindowFunction.CreateWindowFuncArg1.constructor` | sql/item_create_window_function.h:160 | a fresh arity-1 builder has respectNulls set, by the base constructor |
| `ItemCreateWindowFunction.CreateWindowFuncArg1.Create` | sql/item_create_window_function.h:116-142 | the result, the appended diagnostics and the final list are those of CreateSpec at arity 1 |
| `ItemCreateWindowFunction.CreateWindowFuncArg1.Build` | sql/item_create_window_function.h:151-154 | the typed constructor builds an item naming the function whose only argument is arg1 |
| `ItemCreateWindowFunction.CreateWindowFuncArg2.constructor` | sql/item_create_window_function.h:218 | a fresh arity-2 builder has respectNulls set, by the base constructor |
| `ItemCreateWindowFunction.CreateWindowFuncArg2.Create` | sql/item_create_window_function.h:171-199 | the result, the appended diagnostics and the final list are those of CreateSpec at arity 2 |
| `ItemCreateWindowFunction.CreateWindowFuncArg2.Build` | sql/item_create_window_function.h:209-212 | the typed constructor builds an item naming the function with arguments arg1, arg2 in that order |
| `ItemCreateWindowFunction.CreateWindowFuncArg3.constructor` | sql/item_create_window_function.h:274 | a fresh arity-3 builder has respectNulls set, by the base constructor |
| `ItemCreateWindowFunction.CreateWindowFuncArg3.Create` | sql/item_create_window_function.h:229-255 | the result, the appended diagnostics and the final list are those of CreateSpec at arity 3 |
| `ItemCreateWindowFunction.CreateWindowFuncArg3.Build` | sql/item_create_window_function.h:265-268 | the typed constructor builds an item naming the function with arguments arg1, arg2, arg3 in that order |
| `ItemCreateWindowFunction.CreateWindowFuncNthValue.constructor` | sql/item_create_window_function.h:282 | a fresh nth-value builder has both respectNulls and fromFirst set |

## Left out

- The list-taking `create` of `Create_window_func_nth_value` and its four-argument overload (lines 283-284) are declared but not defined in this header. Their 3-or-4 argument rule and direction handling are not part of this model; only the builder's fields and defaults are.
- `find_native_window_function_builder` and `find_native_window_function_builder_nulls` (lines 298, 307) are external declarations. The name table behind them is not part of this model.
- `Item_func_window` internals, `THD`, and placement-new allocation on `thd->mem_root` are not modelled. The call item is an abstract record, and "allocating a node" means returning `Some(item)`. Every error path returns `None`, so it produces no item.
- The message formatting in `IDB_set_error` is not modelled. Its two calling conventions (an argument array for arities 0–2, `name.str` for arity 3) both become one `(ERR_WF_WRONG_ARGS, name)` log entry.
- The process-wide `s_singleton` instances are not modelled. Neither is the sharing of the mutable `respectNulls` and `fromFirst` fields across sessions. That is a concurrency concern, and the model is sequential.
- The virtual dispatch from the list-taking `create` to a subclass's override of the typed `create` is not modelled. Each adapter calls its own `Build`.
- `ItemList.Pop`: `List<Item>::pop` returns NULL on an empty list. The model requires a non-empty list instead, because the adapters pop only after the count check has shown enough elements.
- Argument items are records with an id and the alias flag. No other part of an expression is modelled.
