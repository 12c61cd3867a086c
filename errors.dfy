/**
 * The exceptions the modelled code raises, one constructor per distinct raise site
 * (or per Python runtime error that the code lets escape).
 */
module Errors {

  datatype Error =
    // wrapper.py: ValueError('tenant value not set')
    | MissingTenantValue
    // wrapper.py: ValueError('logical deleted field and value not set')
    | MissingLogicalDeleteConfig
    // sql_builder.py: ValueError raised for an UPDATE/DELETE without any argument
    | FullTableMutation
    // insert_wrapper.py, _base_chained_update.py: ValueError('null data')
    | NullData
    // TypeError: `exp, arg = None` when a nested condition tree is empty
    | CannotUnpackNone
    // TypeError: calling an attribute that holds a non-callable value
    | NotCallable
    // TypeError: str.join over a sequence holding a non-string item
    | JoinOfNonString
    // AttributeError: reading a missing attribute, or assigning one of an immutable named tuple
    | MissingAttribute(name: string)
    | CannotSetAttribute(name: string)
    // AttributeError: a method called on None or on a value that does not have it
    | NoSuchMethod(name: string)
    // KeyError on a dict lookup
    | MissingKey
    // IndexError on a tuple row shorter than the column list
    | RowTooShort
    // ValueError from list.remove of an element that is not in the list
    | NotInList
    // Exception('No available connection')
    | NoAvailableConnection
    // An exhausted pool asked without a timeout: the caller polls until another caller
    // releases a connection
    | WouldBlock
    // Exception('conditions is required') / Exception('update condition is required')
    | ConditionsRequired
    // Exception('update set is required')
    | UpdateSetRequired
    // Exception('no type specified')
    | NoTypeSpecified
    // UnsupportedException('Prefix cannot be empty')
    | EmptyPrefix
    // ValueError(f'config not found: {keys}')
    | ConfigNotFound
}
